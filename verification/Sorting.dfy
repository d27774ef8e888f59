/** A stable sort by a total preorder, and the order on strings. Sorting permutes its input and leaves it in
    order; a sorted list is left alone; orders that agree sort alike; and under a total order all permutations
    of a list sort to the same one. */
module Sorting {

  ghost predicate TotalPreorder<T(!new)>(le: (T, T) -> bool) {
    && (forall a, b :: le(a, b) || le(b, a))
    && (forall a, b, c :: le(a, b) && le(b, c) ==> le(a, c))
  }

  ghost predicate Sorted<T>(xs: seq<T>, le: (T, T) -> bool) {
    forall i, j :: 0 <= i < j < |xs| ==> le(xs[i], xs[j])
  }

  /** Place `x` after everything not above it. */
  function InsertLast<T>(xs: seq<T>, x: T, le: (T, T) -> bool): seq<T> {
    if xs == [] || le(xs[|xs| - 1], x) then xs + [x]
    else InsertLast(xs[..|xs| - 1], x, le) + [xs[|xs| - 1]]
  }

  function SortBy<T>(xs: seq<T>, le: (T, T) -> bool): seq<T> {
    if xs == [] then [] else InsertLast(SortBy(xs[..|xs| - 1], le), xs[|xs| - 1], le)
  }

  lemma {:induction false} InsertPermutes<T>(xs: seq<T>, x: T, le: (T, T) -> bool)
    ensures multiset(InsertLast(xs, x, le)) == multiset(xs) + multiset{x}
  {
    if xs != [] && !le(xs[|xs| - 1], x) {
      InsertPermutes(xs[..|xs| - 1], x, le);
      assert xs == xs[..|xs| - 1] + [xs[|xs| - 1]];
    }
  }

  lemma {:induction false} InsertSorted<T(!new)>(xs: seq<T>, x: T, le: (T, T) -> bool)
    requires TotalPreorder(le) && Sorted(xs, le)
    ensures Sorted(InsertLast(xs, x, le), le)
  {
    if xs != [] && !le(xs[|xs| - 1], x) {
      var init, last := xs[..|xs| - 1], xs[|xs| - 1];
      InsertSorted(init, x, le);
      InsertPermutes(init, x, le);
      var longer := InsertLast(init, x, le);
      forall i | 0 <= i < |longer| ensures le(longer[i], last) {
        assert longer[i] in multiset(longer);
        if longer[i] != x { assert longer[i] in init; }
      }
    }
  }

  lemma {:induction false} SortPermutes<T>(xs: seq<T>, le: (T, T) -> bool)
    ensures multiset(SortBy(xs, le)) == multiset(xs)
  {
    if xs == [] {
    } else {
      var init, last := xs[..|xs| - 1], xs[|xs| - 1];
      SortPermutes(init, le);
      InsertPermutes(SortBy(init, le), last, le);
      assert xs == init + [last];
      assert multiset(init + [last]) == multiset(init) + multiset{last};
    }
  }

  lemma SameElements<T>(xs: seq<T>, ys: seq<T>)
    requires multiset(xs) == multiset(ys)
    ensures |xs| == |ys|
    ensures forall x :: x in xs <==> x in ys
  {
    assert |multiset(xs)| == |xs| && |multiset(ys)| == |ys|;
    assert forall x :: x in xs <==> x in multiset(xs);
    assert forall x :: x in ys <==> x in multiset(ys);
  }

  lemma {:induction false} SortSorts<T(!new)>(xs: seq<T>, le: (T, T) -> bool)
    requires TotalPreorder(le)
    ensures Sorted(SortBy(xs, le), le)
  {
    if xs == [] {
    } else {
      SortSorts(xs[..|xs| - 1], le);
      InsertSorted(SortBy(xs[..|xs| - 1], le), xs[|xs| - 1], le);
    }
  }

  /** A sorted sequence sorts to itself. */
  lemma {:induction false} SortIdempotent<T>(xs: seq<T>, le: (T, T) -> bool)
    requires Sorted(xs, le)
    ensures SortBy(xs, le) == xs
  {
    if xs == [] {
    } else {
      var init, last := xs[..|xs| - 1], xs[|xs| - 1];
      SortIdempotent(init, le);
      assert init == [] || le(init[|init| - 1], last);
      assert InsertLast(init, last, le) == init + [last];
    }
  }

  /** Where equivalent elements are equal, the sorted arrangement of a multiset is unique. */
  lemma {:induction false} SortedUnique<T>(xs: seq<T>, ys: seq<T>, le: (T, T) -> bool)
    requires Sorted(xs, le) && Sorted(ys, le) && multiset(xs) == multiset(ys)
    requires forall a, b :: a in xs && b in xs && le(a, b) && le(b, a) ==> a == b
    ensures xs == ys
    decreases |xs|
  {
    SameElements(xs, ys);
    if xs == [] {
    } else {
      HeadsAgree(xs, ys, le);
      TailMultiset(xs);
      TailMultiset(ys);
      SortedUnique(xs[1..], ys[1..], le);
    }
  }

  /** Orders that agree everywhere sort alike. */
  lemma {:induction false} InsertCongruent<T(!new)>(xs: seq<T>, x: T, le: (T, T) -> bool, le2: (T, T) -> bool)
    requires forall a, b :: le(a, b) == le2(a, b)
    ensures InsertLast(xs, x, le) == InsertLast(xs, x, le2)
  {
    if xs == [] {
    } else {
      InsertCongruent(xs[..|xs| - 1], x, le, le2);
    }
  }

  lemma {:induction false} SortCongruent<T(!new)>(xs: seq<T>, le: (T, T) -> bool, le2: (T, T) -> bool)
    requires forall a, b :: le(a, b) == le2(a, b)
    ensures SortBy(xs, le) == SortBy(xs, le2)
  {
    if xs == [] {
    } else {
      SortCongruent(xs[..|xs| - 1], le, le2);
      InsertCongruent(SortBy(xs[..|xs| - 1], le), xs[|xs| - 1], le, le2);
    }
  }

  /** Under a total order a list sorts as any permutation of it does. */
  lemma SortPermuted<T(!new)>(xs: seq<T>, ys: seq<T>, le: (T, T) -> bool)
    requires TotalPreorder(le) && (forall a, b :: le(a, b) && le(b, a) ==> a == b)
    requires multiset(xs) == multiset(ys)
    ensures SortBy(xs, le) == SortBy(ys, le)
  {
    SortPermutes(xs, le);
    SortPermutes(ys, le);
    SortSorts(xs, le);
    SortSorts(ys, le);
    SortedUnique(SortBy(xs, le), SortBy(ys, le), le);
  }

  lemma TailMultiset<T>(xs: seq<T>)
    requires xs != []
    ensures multiset(xs[1..]) == multiset(xs) - multiset{xs[0]}
  {
    assert xs == [xs[0]] + xs[1..];
  }

  lemma HeadsAgree<T>(xs: seq<T>, ys: seq<T>, le: (T, T) -> bool)
    requires Sorted(xs, le) && Sorted(ys, le) && xs != [] && ys != [] && xs[0] in ys && ys[0] in xs
    requires forall a, b :: a in xs && b in xs && le(a, b) && le(b, a) ==> a == b
    ensures xs[0] == ys[0]
  {
    var i :| 0 <= i < |ys| && ys[i] == xs[0];
    var j :| 0 <= j < |xs| && xs[j] == ys[0];
    if i > 0 && j > 0 { assert le(xs[0], xs[j]) && le(ys[0], ys[i]); }
  }

  // ----- strings

  /** The code-point order, which is the byte order of their encodings. */
  predicate StringLe(a: string, b: string) {
    a == "" || (b != "" && (a[0] < b[0] || (a[0] == b[0] && StringLe(a[1..], b[1..]))))
  }

  lemma {:induction false} StringLeTotal(a: string, b: string)
    ensures StringLe(a, b) || StringLe(b, a)
    ensures StringLe(a, b) && StringLe(b, a) ==> a == b
  {
    if a != "" && b != "" && a[0] == b[0] {
      StringLeTotal(a[1..], b[1..]);
      assert a == [a[0]] + a[1..] && b == [b[0]] + b[1..];
    }
  }

  lemma {:induction false} StringLeTransitive(a: string, b: string, c: string)
    requires StringLe(a, b) && StringLe(b, c)
    ensures StringLe(a, c)
  {
    if a != "" && a[0] == b[0] && b[0] == c[0] { StringLeTransitive(a[1..], b[1..], c[1..]); }
  }
}
