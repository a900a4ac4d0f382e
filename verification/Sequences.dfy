/** Filtering, searching and sorting of sequences, as the service's loops use them. */
module Sequences {

  function Take<T>(xs: seq<T>, n: nat): (r: seq<T>)
    ensures |r| <= n && r <= xs
  {
    if |xs| <= n then xs else xs[..n]
  }

  function Filter<T(!new)>(xs: seq<T>, keep: T -> bool): (r: seq<T>)
    ensures |r| <= |xs|
    ensures forall x :: x in r <==> x in xs && keep(x)
  {
    if xs == [] then []
    else if keep(xs[0]) then [xs[0]] + Filter(xs[1..], keep)
    else Filter(xs[1..], keep)
  }

  function Map<A, B>(xs: seq<A>, f: A -> B): (r: seq<B>)
    ensures |r| == |xs| && forall i :: 0 <= i < |r| ==> r[i] == f(xs[i])
  {
    if xs == [] then [] else [f(xs[0])] + Map(xs[1..], f)
  }

  ghost predicate Distinct<T>(xs: seq<T>) {
    forall i, j :: 0 <= i < j < |xs| ==> xs[i] != xs[j]
  }

  /** The same, element by element: cheaper where only one pair matters. */
  ghost predicate Unrepeated<T>(xs: seq<T>) {
    xs == [] || (xs[0] !in xs[1..] && Unrepeated(xs[1..]))
  }

  lemma {:induction false} UnrepeatedAt<T>(xs: seq<T>, i: nat, j: nat)
    requires Unrepeated(xs) && i < j < |xs|
    ensures xs[i] != xs[j]
  {
    if i == 0 {
      assert xs[1..][j - 1] == xs[j];
    } else {
      UnrepeatedAt(xs[1..], i - 1, j - 1);
    }
  }

  lemma FrontStep<T>(xs: seq<T>, i: nat)
    requires Unrepeated(xs) && i < |xs|
    ensures xs[i] !in xs[..i] && xs[..i + 1] == xs[..i] + [xs[i]]
  {
    if xs[i] in xs[..i] {
      var j :| 0 <= j < i && xs[..i][j] == xs[i];
      UnrepeatedAt(xs, j, i);
    }
  }

  lemma BackStep<T>(xs: seq<T>, i: nat)
    requires i < |xs|
    ensures xs[i..] != [] && xs[i..][0] == xs[i] && xs[i..][1..] == xs[i + 1..]
  {
  }

  lemma {:induction false} DistinctUnrepeated<T>(xs: seq<T>)
    requires Distinct(xs)
    ensures Unrepeated(xs)
  {
    if xs != [] { DistinctUnrepeated(xs[1..]); }
  }

  lemma {:induction false} IndexOfUnrepeated<T>(xs: seq<T>, i: nat)
    requires Unrepeated(xs) && i < |xs|
    ensures IndexOf(xs, xs[i]) == i
  {
    var j := IndexOf(xs, xs[i]);
    if j < i { UnrepeatedAt(xs, j, i); }
  }

  function IndexOf<T(==)>(xs: seq<T>, x: T): (i: nat)
    requires x in xs
    ensures i < |xs| && xs[i] == x
    ensures forall j :: 0 <= j < i ==> xs[j] != x
  {
    if xs[0] == x then 0 else 1 + IndexOf(xs[1..], x)
  }

  /** The first `n` come before all others, and are fewer than `n` only if there are no others. */
  lemma TakeKeepsFirst<T>(xs: seq<T>, n: nat, less: (T, T) -> bool)
    requires Increasing(xs, less)
    ensures Increasing(Take(xs, n), less)
    ensures forall x, i :: x in xs && x !in Take(xs, n) && 0 <= i < |Take(xs, n)| ==> |Take(xs, n)| == n && less(Take(xs, n)[i], x)
  {
    var front := Take(xs, n);
    forall x, i | x in xs && x !in front && 0 <= i < |front| ensures |front| == n && less(front[i], x) {
      var j := IndexOf(xs, x);
      assert forall k :: 0 <= k < |front| ==> xs[k] in front;
    }
  }

  lemma {:induction false} FilterConcat<T(!new)>(xs: seq<T>, ys: seq<T>, keep: T -> bool)
    ensures Filter(xs + ys, keep) == Filter(xs, keep) + Filter(ys, keep)
  {
    if xs == [] {
      assert xs + ys == ys;
    } else {
      assert (xs + ys)[1..] == xs[1..] + ys;
      FilterConcat(xs[1..], ys, keep);
    }
  }

  lemma {:induction false} FilterSnoc<T(!new)>(xs: seq<T>, n: nat, keep: T -> bool)
    requires n < |xs|
    ensures Filter(xs[..n + 1], keep) == Filter(xs[..n], keep) + (if keep(xs[n]) then [xs[n]] else [])
  {
    assert xs[..n + 1] == xs[..n] + [xs[n]];
    FilterConcat(xs[..n], [xs[n]], keep);
  }

  lemma FilterCount<T(!new)>(xs: seq<T>, n: nat, keep: T -> bool)
    requires n < |xs|
    ensures |Filter(xs[..n + 1], keep)| == |Filter(xs[..n], keep)| + (if keep(xs[n]) then 1 else 0)
  {
    FilterSnoc(xs, n, keep);
  }

  lemma Halves<T>(xs: seq<T>, n: nat)
    requires n <= |xs|
    ensures xs[..n] + xs[n..] == xs
  {
  }

  lemma FrontOfBoth<T>(a: seq<T>, b: seq<T>)
    ensures a <= a + b
  {
  }

  /** The first `n` kept elements, once a prefix has them. */
  lemma FilterFirst<T(!new)>(xs: seq<T>, n: nat, keep: T -> bool)
    requires n <= |xs|
    ensures Filter(xs[..n], keep) <= Filter(xs, keep)
  {
    Halves(xs, n);
    FilterConcat(xs[..n], xs[n..], keep);
    FrontOfBoth(Filter(xs[..n], keep), Filter(xs[n..], keep));
  }

  lemma {:induction false} FilterAgree<T(!new)>(xs: seq<T>, keep: T -> bool, keep': T -> bool)
    requires forall x :: x in xs ==> keep(x) == keep'(x)
    ensures Filter(xs, keep) == Filter(xs, keep')
  {
    if xs != [] { FilterAgree(xs[1..], keep, keep'); }
  }

  lemma {:induction false} FilterAll<T(!new)>(xs: seq<T>, keep: T -> bool)
    requires forall x :: x in xs ==> keep(x)
    ensures Filter(xs, keep) == xs
  {
    if xs != [] { FilterAll(xs[1..], keep); }
  }

  lemma {:induction false} FilterNone<T(!new)>(xs: seq<T>, keep: T -> bool)
    requires forall x :: x in xs ==> !keep(x)
    ensures Filter(xs, keep) == []
  {
    if xs != [] { FilterNone(xs[1..], keep); }
  }

  lemma {:induction false} FilterTwice<T(!new)>(xs: seq<T>, p: T -> bool, q: T -> bool, both: T -> bool)
    requires forall x :: x in xs ==> both(x) == (p(x) && q(x))
    ensures Filter(Filter(xs, p), q) == Filter(xs, both)
  {
    if xs != [] { FilterTwice(xs[1..], p, q, both); }
  }

  lemma {:induction false} FilterCommutes<T(!new)>(xs: seq<T>, p: T -> bool, q: T -> bool)
    ensures Filter(Filter(xs, p), q) == Filter(Filter(xs, q), p)
  {
    var both := (x: T) => p(x) && q(x);
    FilterTwice(xs, p, q, both);
    FilterTwice(xs, q, p, both);
  }

  /** Where a kept element stands: its index in the filtered sequence is the number kept before it. */
  lemma {:induction false} FilterAt<T(!new)>(xs: seq<T>, keep: T -> bool, i: nat)
    requires i < |xs| && keep(xs[i])
    ensures |Filter(xs[..i], keep)| < |Filter(xs, keep)|
    ensures Filter(xs, keep)[|Filter(xs[..i], keep)|] == xs[i]
  {
    assert xs == xs[..i] + ([xs[i]] + xs[i + 1..]);
    FilterConcat(xs[..i], [xs[i]] + xs[i + 1..], keep);
    assert ([xs[i]] + xs[i + 1..])[1..] == xs[i + 1..];
  }

  lemma Member<T>(s: set<T>) returns (x: T)
    requires s != {}
    ensures x in s
  {
    x :| x in s;
  }

  // ---- sorting -------------------------------------------------------------

  /** `less` orders its type up to ties: `!less(y, x)` is a total preorder. */
  ghost predicate StrictWeak<T(!new)>(less: (T, T) -> bool) {
    && (forall x, y :: less(x, y) ==> !less(y, x))
    && (forall x, y, z :: !less(y, x) && !less(z, y) ==> !less(z, x))
  }

  ghost predicate Ordered<T>(xs: seq<T>, less: (T, T) -> bool) {
    forall i, j :: 0 <= i < j < |xs| ==> !less(xs[j], xs[i])
  }

  ghost predicate Increasing<T>(xs: seq<T>, less: (T, T) -> bool) {
    forall i, j :: 0 <= i < j < |xs| ==> less(xs[i], xs[j])
  }

  /** The library's stable sort, as an insertion sort: an earlier element goes before its ties. */
  function Insert<T>(x: T, ys: seq<T>, less: (T, T) -> bool): seq<T> {
    if ys == [] || !less(ys[0], x) then [x] + ys else [ys[0]] + Insert(x, ys[1..], less)
  }

  function Sort<T>(xs: seq<T>, less: (T, T) -> bool): seq<T> {
    if xs == [] then [] else Insert(xs[0], Sort(xs[1..], less), less)
  }

  lemma {:induction false} InsertPermutes<T>(x: T, ys: seq<T>, less: (T, T) -> bool)
    ensures multiset(Insert(x, ys, less)) == multiset([x] + ys)
  {
    if ys == [] || !less(ys[0], x) {
    } else {
      InsertPermutes(x, ys[1..], less);
      assert ys == [ys[0]] + ys[1..];
    }
  }

  lemma {:induction false} SortPermutes<T>(xs: seq<T>, less: (T, T) -> bool)
    ensures multiset(Sort(xs, less)) == multiset(xs)
  {
    if xs != [] {
      SortPermutes(xs[1..], less);
      InsertPermutes(xs[0], Sort(xs[1..], less), less);
      assert xs == [xs[0]] + xs[1..];
    }
  }

  lemma SameMembers<T>(xs: seq<T>, ys: seq<T>)
    requires multiset(xs) == multiset(ys)
    ensures |xs| == |ys|
    ensures forall x :: x in xs <==> x in ys
  {
    assert |multiset(xs)| == |multiset(ys)|;
    forall x ensures x in xs <==> x in ys {
      assert x in xs <==> x in multiset(xs);
      assert x in ys <==> x in multiset(ys);
    }
  }

  lemma {:induction false} InsertOrdered<T(!new)>(x: T, ys: seq<T>, less: (T, T) -> bool)
    requires StrictWeak(less) && Ordered(ys, less)
    ensures Ordered(Insert(x, ys, less), less)
  {
    var r := Insert(x, ys, less);
    if ys == [] {
    } else if !less(ys[0], x) {
      forall j | 0 < j < |r| ensures !less(r[j], r[0]) {
        assert !less(ys[j - 1], ys[0]);
      }
    } else {
      InsertOrdered(x, ys[1..], less);
      var tail := Insert(x, ys[1..], less);
      InsertPermutes(x, ys[1..], less);
      SameMembers(tail, [x] + ys[1..]);
      forall j | 0 < j < |r| ensures !less(r[j], r[0]) {
        assert r[j] == tail[j - 1] && r[j] in tail;
        assert r[j] == x || r[j] in ys[1..];
      }
    }
  }

  lemma {:induction false} SortOrdered<T(!new)>(xs: seq<T>, less: (T, T) -> bool)
    requires StrictWeak(less)
    ensures Ordered(Sort(xs, less), less)
  {
    if xs != [] {
      SortOrdered(xs[1..], less);
      InsertOrdered(xs[0], Sort(xs[1..], less), less);
    }
  }

  /** Ties only between equal elements. */
  ghost predicate Decides<T>(xs: seq<T>, less: (T, T) -> bool) {
    forall x, y :: x in xs && y in xs && x != y ==> less(x, y) || less(y, x)
  }

  lemma HeadsAgree<T(!new)>(xs: seq<T>, ys: seq<T>, less: (T, T) -> bool)
    requires StrictWeak(less) && Decides(xs, less)
    requires Ordered(xs, less) && Ordered(ys, less)
    requires xs != [] && ys != [] && ys[0] in xs && xs[0] in ys
    ensures xs[0] == ys[0]
  {
    var i, j := IndexOf(ys, xs[0]), IndexOf(xs, ys[0]);
  }

  lemma TailMultiset<T>(xs: seq<T>)
    requires xs != []
    ensures multiset(xs[1..]) == multiset(xs) - multiset{xs[0]}
  {
    assert xs == [xs[0]] + xs[1..];
  }

  lemma SplitAt<T>(b: seq<T>, i: nat)
    requires i < |b|
    ensures b == b[..i] + ([b[i]] + b[i + 1..]) && ([b[i]] + b[i + 1..])[1..] == b[i + 1..]
  {
  }

  lemma OneMore<T>(a: seq<T>, more: seq<T>, b: seq<T>)
    ensures multiset(a + (more + b)) == multiset(a + b) + multiset(more)
  {
    assert multiset(a + (more + b)) == multiset(a) + multiset(more + b);
  }

  lemma WithoutFirst<T>(a: seq<T>, b: seq<T>, i: nat)
    requires multiset(a) == multiset(b) && a != [] && i < |b| && b[i] == a[0]
    ensures multiset(a[1..]) == multiset(b[..i] + b[i + 1..])
  {
    TailMultiset(a);
    assert b == b[..i] + [b[i]] + b[i + 1..];
    assert multiset(b) == multiset(b[..i] + b[i + 1..]) + multiset{b[i]};
  }

  lemma {:induction false} OrderedUnique<T(!new)>(xs: seq<T>, ys: seq<T>, less: (T, T) -> bool)
    requires StrictWeak(less) && Decides(xs, less)
    requires Ordered(xs, less) && Ordered(ys, less)
    requires multiset(xs) == multiset(ys)
    ensures xs == ys
  {
    SameMembers(xs, ys);
    if xs != [] {
      HeadsAgree(xs, ys, less);
      TailMultiset(xs);
      TailMultiset(ys);
      OrderedUnique(xs[1..], ys[1..], less);
      assert xs == [xs[0]] + xs[1..] && ys == [ys[0]] + ys[1..];
    }
  }

  /** The result of a sort depends on the elements alone, not on the order they came in. */
  lemma SortIgnoresOrder<T(!new)>(xs: seq<T>, ys: seq<T>, less: (T, T) -> bool)
    requires StrictWeak(less) && Decides(xs, less)
    requires multiset(xs) == multiset(ys)
    ensures Sort(xs, less) == Sort(ys, less)
  {
    SortOrdered(xs, less);
    SortOrdered(ys, less);
    SortPermutes(xs, less);
    SortPermutes(ys, less);
    SameMembers(xs, Sort(xs, less));
    OrderedUnique(Sort(xs, less), Sort(ys, less), less);
  }

  lemma {:induction false} SortOfIncreasing<T>(xs: seq<T>, less: (T, T) -> bool)
    requires Increasing(xs, less)
    requires forall x, y :: x in xs && y in xs && less(x, y) ==> !less(y, x)
    ensures Sort(xs, less) == xs
  {
    if xs != [] {
      SortOfIncreasing(xs[1..], less);
      if |xs| > 1 { assert less(xs[0], xs[1]); }
    }
  }

  // ---- tables listed in an order --------------------------------------------

  lemma {:induction false} DistinctMultiset<T>(xs: seq<T>)
    requires Distinct(xs)
    ensures multiset(xs) == multiset(set x | x in xs)
  {
    if xs == [] {
    } else {
      DistinctMultiset(xs[1..]);
      assert xs == [xs[0]] + xs[1..];
      assert xs[0] !in xs[1..];
      assert (set x | x in xs) == {xs[0]} + set x | x in xs[1..];
    }
  }

  lemma RepeatCounts<T>(xs: seq<T>, i: nat, j: nat)
    requires i < j < |xs| && xs[i] == xs[j]
    ensures multiset(xs)[xs[i]] >= 2
  {
    assert xs == xs[..i] + [xs[i]] + xs[i + 1..j] + [xs[j]] + xs[j + 1..];
  }

  lemma SetSequenceDistinct<T>(xs: seq<T>, s: set<T>)
    requires multiset(xs) == multiset(s)
    ensures Distinct(xs)
  {
    forall i, j | 0 <= i < j < |xs| ensures xs[i] != xs[j] {
      if xs[i] == xs[j] { RepeatCounts(xs, i, j); }
    }
  }

  /** Some sequence holding every element of the set once. */
  ghost function Enumerate<T(!new)>(s: set<T>): seq<T> {
    if s == {} then [] else
      var x :| x in s;
      [x] + Enumerate(s - {x})
  }

  lemma {:induction false} EnumerateOnce<T(!new)>(s: set<T>)
    ensures Distinct(Enumerate(s))
    ensures forall x :: x in Enumerate(s) <==> x in s
  {
    if s != {} {
      EnumerateOnce(s - {Enumerate(s)[0]});
    }
  }

  /** The rows of a table in the order of an `ORDER BY` clause. */
  ghost function Listed<T(!new)>(s: set<T>, less: (T, T) -> bool): seq<T> {
    Sort(Enumerate(s), less)
  }

  ghost predicate Separates<T>(s: set<T>, less: (T, T) -> bool) {
    forall x, y :: x in s && y in s && x != y ==> less(x, y) || less(y, x)
  }

  lemma OrderedIncreasing<T(!new)>(xs: seq<T>, s: set<T>, less: (T, T) -> bool)
    requires Separates(s, less) && Ordered(xs, less) && Distinct(xs) && forall x :: x in xs ==> x in s
    ensures Increasing(xs, less)
  {
    forall i, j | 0 <= i < j < |xs| ensures less(xs[i], xs[j]) {
      assert xs[i] in xs && xs[j] in xs;
    }
  }

  lemma ListedRows<T(!new)>(s: set<T>, less: (T, T) -> bool)
    requires StrictWeak(less) && Separates(s, less)
    ensures forall x :: x in Listed(s, less) <==> x in s
    ensures Increasing(Listed(s, less), less)
    ensures Distinct(Listed(s, less))
  {
    var e, r := Enumerate(s), Listed(s, less);
    EnumerateOnce(s);
    SortPermutes(e, less);
    SameMembers(e, r);
    SortOrdered(e, less);
    DistinctMultiset(e);
    assert (set x | x in e) == s;
    SetSequenceDistinct(r, s);
    OrderedIncreasing(r, s, less);
  }

  lemma ListedUnique<T(!new)>(xs: seq<T>, s: set<T>, less: (T, T) -> bool)
    requires StrictWeak(less) && Separates(s, less)
    requires Increasing(xs, less) && forall x :: x in xs <==> x in s
    ensures xs == Listed(s, less)
  {
    ListedRows(s, less);
    var r := Listed(s, less);
    assert Distinct(xs);
    DistinctMultiset(xs);
    DistinctMultiset(r);
    assert (set x | x in xs) == s == (set x | x in r);
    OrderedUnique(xs, r, less);
  }

  /** Lists a set of rows in the given order: what a query with `ORDER BY` returns. */
  method List<T(!new, ==)>(s: set<T>, less: (T, T) -> bool) returns (r: seq<T>)
    requires StrictWeak(less) && Separates(s, less)
    ensures r == Listed(s, less)
  {
    var rest := s;
    r := [];
    while rest != {}
      invariant rest <= s
      invariant forall x :: x in r <==> x in s && x !in rest
      invariant Increasing(r, less)
      decreases rest
    {
      var x :| x in rest;
      assert x !in r;
      SortedInsertIncreases(x, r, s, less);
      InsertPermutes(x, r, less);
      SameMembers(Insert(x, r, less), [x] + r);
      r := Insert(x, r, less);
      rest := rest - {x};
    }
    ListedUnique(r, s, less);
  }

  lemma SortedInsertIncreases<T(!new)>(x: T, ys: seq<T>, s: set<T>, less: (T, T) -> bool)
    requires StrictWeak(less) && Separates(s, less)
    requires x in s && x !in ys && (forall y :: y in ys ==> y in s) && Increasing(ys, less)
    ensures Increasing(Insert(x, ys, less), less)
  {
    var r := Insert(x, ys, less);
    InsertOrdered(x, ys, less);
    InsertPermutes(x, ys, less);
    SameMembers(r, [x] + ys);
    assert Distinct([x] + ys);
    DistinctMultiset([x] + ys);
    SetSequenceDistinct(r, set y | y in [x] + ys);
    OrderedIncreasing(r, s, less);
  }
}
