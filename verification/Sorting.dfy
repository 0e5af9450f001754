/** Python's `sorted`: a stable sort, and what determines its result. */
module Sorting {

  ghost predicate TotalPreorder<T(!new)>(leq: (T, T) -> bool) {
    && (forall x, y :: leq(x, y) || leq(y, x))
    && (forall x, y, z :: leq(x, y) && leq(y, z) ==> leq(x, z))
  }

  ghost predicate SortedBy<T>(xs: seq<T>, leq: (T, T) -> bool) {
    forall i, j :: 0 <= i < j < |xs| ==> leq(xs[i], xs[j])
  }

  /** No two different elements of `xs` are equal in the order. */
  ghost predicate Separates<T(!new)>(leq: (T, T) -> bool, xs: multiset<T>) {
    forall x, y :: x in xs && y in xs && leq(x, y) && leq(y, x) ==> x == y
  }

  function Insert<T>(x: T, xs: seq<T>, leq: (T, T) -> bool): (r: seq<T>)
    ensures multiset(r) == multiset{x} + multiset(xs)
    ensures |r| == |xs| + 1
  {
    if xs == [] || leq(x, xs[0]) then [x] + xs
    else
      assert xs == [xs[0]] + xs[1..];
      [xs[0]] + Insert(x, xs[1..], leq)
  }

  function Sort<T>(xs: seq<T>, leq: (T, T) -> bool): (r: seq<T>)
    ensures multiset(r) == multiset(xs)
    ensures |r| == |xs|
  {
    if xs == [] then []
    else
      assert xs == [xs[0]] + xs[1..];
      Insert(xs[0], Sort(xs[1..], leq), leq)
  }

  lemma {:induction false} InsertSorted<T(!new)>(x: T, xs: seq<T>, leq: (T, T) -> bool)
    requires TotalPreorder(leq) && SortedBy(xs, leq)
    ensures SortedBy(Insert(x, xs, leq), leq)
    decreases |xs|
  {
    if xs != [] && !leq(x, xs[0]) {
      var rest := Insert(x, xs[1..], leq);
      InsertSorted(x, xs[1..], leq);
      forall k | 0 <= k < |rest| ensures leq(xs[0], rest[k]) {
        assert rest[k] in multiset(rest);
        assert rest[k] == x || rest[k] in xs[1..];
      }
    }
  }

  lemma {:induction false} SortSorts<T(!new)>(xs: seq<T>, leq: (T, T) -> bool)
    requires TotalPreorder(leq)
    ensures SortedBy(Sort(xs, leq), leq)
    decreases |xs|
  {
    if xs != [] {
      SortSorts(xs[1..], leq);
      InsertSorted(xs[0], Sort(xs[1..], leq), leq);
    }
  }

  lemma HeadsAgree<T(!new)>(xs: seq<T>, ys: seq<T>, leq: (T, T) -> bool)
    requires TotalPreorder(leq) && SortedBy(xs, leq) && SortedBy(ys, leq)
    requires xs != [] && ys != []
    requires multiset(xs) == multiset(ys) && Separates(leq, multiset(xs))
    ensures xs[0] == ys[0]
  {
    assert xs[0] in multiset(ys) && ys[0] in multiset(xs);
    var i :| 0 <= i < |ys| && ys[i] == xs[0];
    var j :| 0 <= j < |xs| && xs[j] == ys[0];
    assert leq(xs[0], xs[0]) && leq(ys[0], ys[0]);
    assert leq(ys[0], xs[0]) && leq(xs[0], ys[0]);
  }

  lemma TailElements<T>(xs: seq<T>)
    requires xs != []
    ensures multiset(xs[1..]) == multiset(xs) - multiset{xs[0]}
  {
    assert xs == [xs[0]] + xs[1..];
  }

  /** A sorted sequence without ties is determined by its elements. */
  lemma {:induction false} SortedIsUnique<T(!new)>(xs: seq<T>, ys: seq<T>, leq: (T, T) -> bool)
    requires TotalPreorder(leq) && SortedBy(xs, leq) && SortedBy(ys, leq)
    requires multiset(xs) == multiset(ys) && Separates(leq, multiset(xs))
    ensures xs == ys
    decreases |xs|
  {
    assert |multiset(xs)| == |xs| && |multiset(ys)| == |ys|;
    if xs != [] {
      HeadsAgree(xs, ys, leq);
      TailElements(xs);
      TailElements(ys);
      assert multiset(xs[1..]) <= multiset(xs);
      SortedIsUnique(xs[1..], ys[1..], leq);
    }
  }

  /** The order in which the elements are listed does not matter. */
  lemma SortIgnoresOrder<T(!new)>(xs: seq<T>, ys: seq<T>, leq: (T, T) -> bool)
    requires TotalPreorder(leq) && multiset(xs) == multiset(ys) && Separates(leq, multiset(xs))
    ensures Sort(xs, leq) == Sort(ys, leq)
  {
    SortSorts(xs, leq);
    SortSorts(ys, leq);
    SortedIsUnique(Sort(xs, leq), Sort(ys, leq), leq);
  }

  // ---------------------------------------------------------------- stability

  function Ties<T>(xs: seq<T>, t: T, leq: (T, T) -> bool): seq<T> {
    if xs == [] then []
    else (if leq(xs[0], t) && leq(t, xs[0]) then [xs[0]] else []) + Ties(xs[1..], t, leq)
  }

  lemma {:induction false} InsertKeepsTies<T(!new)>(x: T, xs: seq<T>, t: T, leq: (T, T) -> bool)
    requires TotalPreorder(leq) && SortedBy(xs, leq)
    ensures Ties(Insert(x, xs, leq), t, leq) == Ties([x] + xs, t, leq)
    decreases |xs|
  {
    TiesCons(x, xs, t, leq);
    if xs != [] && !leq(x, xs[0]) {
      InsertKeepsTies(x, xs[1..], t, leq);
      TiesCons(xs[0], Insert(x, xs[1..], leq), t, leq);
      TiesCons(x, xs[1..], t, leq);
    }
  }

  lemma TiesCons<T>(x: T, xs: seq<T>, t: T, leq: (T, T) -> bool)
    ensures Ties([x] + xs, t, leq) == (if leq(x, t) && leq(t, x) then [x] else []) + Ties(xs, t, leq)
  {
    assert ([x] + xs)[1..] == xs;
  }

  /** Elements that tie keep the order in which they were listed. */
  lemma {:induction false} SortIsStable<T(!new)>(xs: seq<T>, t: T, leq: (T, T) -> bool)
    requires TotalPreorder(leq)
    ensures Ties(Sort(xs, leq), t, leq) == Ties(xs, t, leq)
    decreases |xs|
  {
    if xs != [] {
      SortSorts(xs[1..], leq);
      SortIsStable(xs[1..], t, leq);
      InsertKeepsTies(xs[0], Sort(xs[1..], leq), t, leq);
      TiesCons(xs[0], Sort(xs[1..], leq), t, leq);
    }
  }
}
