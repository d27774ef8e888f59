/** Lists without duplicates: filters of them, the place of an element, and when two of them are permutations
    of one another. The sidebar's accounts are such lists, and moving or reconciling one filters it and puts
    other elements before or between what is left. */
module Lists {
  import opened Wrappers

  function Filter<T>(xs: seq<T>, p: T -> bool): seq<T> {
    if xs == [] then [] else
    var kept := Filter(xs[..|xs| - 1], p);
    if p(xs[|xs| - 1]) then kept + [xs[|xs| - 1]] else kept
  }

  predicate NoDup<T(==)>(xs: seq<T>) {
    forall i, j :: 0 <= i < j < |xs| ==> xs[i] != xs[j]
  }

  /** The first index of `x`, or the length. */
  function IndexOf(xs: seq<string>, x: string): (n: nat)
    ensures n <= |xs| && (n < |xs| ==> xs[n] == x) && forall i :: 0 <= i < n ==> xs[i] != x
  {
    if xs == [] then 0 else if xs[0] == x then 0 else 1 + IndexOf(xs[1..], x)
  }

  lemma {:induction false} FilterMembers<T>(xs: seq<T>, p: T -> bool)
    ensures forall x :: x in Filter(xs, p) <==> x in xs && p(x)
  {
    if xs == [] {
    } else {
      FilterMembers(xs[..|xs| - 1], p);
      assert xs == xs[..|xs| - 1] + [xs[|xs| - 1]];
    }
  }

  lemma {:induction false} FilterNoDup<T>(xs: seq<T>, p: T -> bool)
    requires NoDup(xs)
    ensures NoDup(Filter(xs, p))
  {
    if xs == [] {
    } else {
      FilterNoDup(xs[..|xs| - 1], p);
      FilterMembers(xs[..|xs| - 1], p);
    }
  }

  lemma {:induction false} FilterAll<T>(xs: seq<T>, p: T -> bool)
    requires forall x :: x in xs ==> p(x)
    ensures Filter(xs, p) == xs
  {
    if xs == [] {
    } else {
      FilterAll(xs[..|xs| - 1], p);
      assert xs == xs[..|xs| - 1] + [xs[|xs| - 1]];
    }
  }

  lemma {:induction false} FilterNone<T>(xs: seq<T>, p: T -> bool)
    requires forall x :: x in xs ==> !p(x)
    ensures Filter(xs, p) == []
  {
    if xs == [] {
    } else {
      FilterNone(xs[..|xs| - 1], p);
    }
  }

  lemma {:induction false} FilterConcat<T>(xs: seq<T>, ys: seq<T>, p: T -> bool)
    ensures Filter(xs + ys, p) == Filter(xs, p) + Filter(ys, p)
    decreases |ys|
  {
    if ys == [] {
      assert xs + ys == xs;
    } else {
      var all := xs + ys;
      assert all[..|all| - 1] == xs + ys[..|ys| - 1];
      FilterConcat(xs, ys[..|ys| - 1], p);
    }
  }

  /** Duplicate-free lists of the same elements are permutations of one another. */
  lemma {:induction false} SameSetSameBag<T>(xs: seq<T>, ys: seq<T>)
    requires NoDup(xs) && NoDup(ys) && forall x :: x in xs <==> x in ys
    ensures multiset(xs) == multiset(ys)
  {
    forall x ensures multiset(xs)[x] == multiset(ys)[x] {
      CountOnce(xs, x);
      CountOnce(ys, x);
    }
  }

  lemma {:induction false} CountOnce<T>(xs: seq<T>, x: T)
    requires NoDup(xs)
    ensures multiset(xs)[x] == if x in xs then 1 else 0
  {
    if xs == [] {
    } else {
      var init, last := xs[..|xs| - 1], xs[|xs| - 1];
      CountOnce(init, x);
      assert xs == init + [last];
      assert x in init ==> x != last;
    }
  }

  lemma {:induction false} IndexIsUnique(xs: seq<string>, x: string, i: nat)
    requires NoDup(xs) && i < |xs| && xs[i] == x
    ensures IndexOf(xs, x) == i
  {
  }

  /** A list whose bag holds nothing twice has no duplicates. */
  lemma NoDupFromBag<T>(xs: seq<T>)
    requires forall x :: multiset(xs)[x] <= 1
    ensures NoDup(xs)
  {
    forall i, j | 0 <= i < j < |xs| ensures xs[i] != xs[j] {
      var front, back, x := xs[..j], xs[j..], xs[i];
      assert xs == front + back;
      assert multiset(xs)[x] == multiset(front)[x] + multiset(back)[x];
      assert front[i] == x && x in multiset(front);
      assert back[0] == xs[j] && xs[j] in multiset(back);
    }
  }

  lemma PermutedNoDup<T>(xs: seq<T>, ys: seq<T>)
    requires NoDup(xs) && multiset(xs) == multiset(ys)
    ensures NoDup(ys)
  {
    forall x ensures multiset(ys)[x] <= 1 { CountOnce(xs, x); }
    NoDupFromBag(ys);
  }

  lemma ConcatNoDup(a: seq<string>, b: seq<string>)
    requires NoDup(a) && NoDup(b) && forall x :: x in a ==> x !in b
    ensures NoDup(a + b)
  {
    forall i, j | 0 <= i < j < |a + b| ensures (a + b)[i] != (a + b)[j] {
      if i < |a| && |a| <= j { assert (a + b)[i] in a && (a + b)[j] in b; }
    }
  }

  /** The elements stand in their order in `stored`. */
  predicate Climbs(kept: seq<string>, stored: seq<string>) {
    forall i, j :: 0 <= i < j < |kept| ==> IndexOf(stored, kept[i]) < IndexOf(stored, kept[j])
  }

  lemma {:induction false} FilterKeepsOrder(xs: seq<string>, p: string -> bool)
    requires NoDup(xs)
    ensures Climbs(Filter(xs, p), xs)
  {
    if xs == [] {
    } else {
      var init, last := xs[..|xs| - 1], xs[|xs| - 1];
      FilterKeepsOrder(init, p);
      FilterMembers(init, p);
      assert xs == init + [last];
      ClimbsFurther(Filter(init, p), init, last);
      assert Filter(xs, p) == if p(last) then Filter(init, p) + [last] else Filter(init, p);
    }
  }

  lemma ClimbsFurther(kept: seq<string>, init: seq<string>, last: string)
    requires NoDup(init + [last]) && Climbs(kept, init) && forall x :: x in kept ==> x in init
    ensures Climbs(kept, init + [last]) && Climbs(kept + [last], init + [last])
  {
    var xs, more := init + [last], kept + [last];
    assert xs[|init|] == last;
    IndexIsUnique(xs, last, |init|);
    forall i, j | 0 <= i < j < |more| ensures IndexOf(xs, more[i]) < IndexOf(xs, more[j]) {
      assert more[i] == kept[i] && kept[i] in kept;
      IndexUnmoved(init, last, kept[i]);
      if j < |kept| {
        assert more[j] == kept[j] && kept[j] in kept;
        IndexUnmoved(init, last, kept[j]);
      }
    }
    forall i, j | 0 <= i < j < |kept| ensures IndexOf(xs, kept[i]) < IndexOf(xs, kept[j]) {
      assert more[i] == kept[i] && more[j] == kept[j];
    }
  }

  lemma IndexUnmoved(init: seq<string>, last: string, x: string)
    requires NoDup(init + [last]) && x in init
    ensures IndexOf(init + [last], x) == IndexOf(init, x) < |init|
  {
    var n := IndexOf(init, x);
    assert (init + [last])[n] == x;
    IndexIsUnique(init + [last], x, n);
  }
}
