/** Overlap resolution with empty spans allowed. The sweep compares with the last kept span alone, so an empty
    span can hide the one before it; the result is still disjoint exactly when no span that stays has an empty
    one at its own start and another starting inside it. */
module EmptySpans {
  import opened Bytes
  import opened Sorting
  import opened Overlap

  /** An empty span at the start of a span that stays, and another span starting inside that one: the empty
      one hides the first from the comparison with the last. */
  ghost predicate Hidden(spans: seq<Span>, n: nat)
    requires Proper(spans, n)
  {
    exists k, e, s :: HiddenBy(spans, k, e, s) && Stays(spans, k, n)
  }

  predicate HiddenBy(spans: seq<Span>, k: Span, e: Span, s: Span) {
    && k in spans && e in spans && s in spans
    && e.start == e.end == k.start && k.start < s.start < k.end
  }

  predicate Ascending(spans: seq<Span>) {
    forall i, j :: 0 <= i < j < |spans| ==> SpanLe(spans[i], spans[j])
  }

  lemma {:induction false} SweepAscends(sorted: seq<Span>)
    requires Sorted(sorted, SpanLe)
    ensures Ascending(Sweep(sorted))
  {
    if sorted == [] {
    } else {
      var init, last := sorted[..|sorted| - 1], sorted[|sorted| - 1];
      SweepAscends(init);
      SweepMembers(init);
      forall s | s in Sweep(init) ensures SpanLe(s, last) {
        var m :| 0 <= m < |init| && init[m] == s;
        assert SpanLe(sorted[m], last);
      }
    }
  }

  /** Neighbours in the result never overlap. */
  lemma {:induction false} NeighboursApart(sorted: seq<Span>, i: nat)
    requires i + 1 < |Sweep(sorted)|
    ensures !Overlaps(Sweep(sorted)[i], Sweep(sorted)[i + 1])
  {
    if i + 1 < |Sweep(sorted[..|sorted| - 1])| { NeighboursApart(sorted[..|sorted| - 1], i); }
  }

  /** Two overlapping kept spans have an empty one at the first one's start between them. */
  lemma OverlapIsHidden(sorted: seq<Span>, n: nat, i: nat, j: nat)
    requires Sorted(sorted, SpanLe) && Proper(sorted, n)
    requires i < j < |Sweep(sorted)| && Overlaps(Sweep(sorted)[i], Sweep(sorted)[j])
    ensures i + 1 < j && HiddenBy(sorted, Sweep(sorted)[i], Sweep(sorted)[i + 1], Sweep(sorted)[j])
  {
    var out := Sweep(sorted);
    SweepAscends(sorted);
    SweepMembers(sorted);
    NeighboursApart(sorted, i);
    assert out[i] in out && out[i + 1] in out && out[j] in out;
  }

  /** A non-empty kept span starts at `p`. */
  predicate HeadsStart(out: seq<Span>, p: nat) {
    exists k :: k in out && k.start == p < k.end
  }

  /** What the sweep has last kept after the empty spans of a kept span's start is one of them. */
  lemma EmptyIsLast(sorted: seq<Span>, n: nat, e: Span)
    requires Sorted(sorted, SpanLe) && Proper(sorted, n) && HeadsStart(Sweep(sorted), e.start)
    requires e in sorted && e.start == e.end && forall s :: s in sorted ==> s.start <= e.start
    ensures var out := Sweep(sorted);
            out != [] && out[|out| - 1].start == out[|out| - 1].end == e.start
  {
    var last, out := sorted[|sorted| - 1], Sweep(sorted);
    SweepAscends(sorted);
    var m :| 0 <= m < |sorted| && sorted[m] == e;
    assert last in sorted && (m < |sorted| - 1 ==> SpanLe(e, last));
    var k :| k in out && k.start == e.start < k.end;
    var i :| 0 <= i < |out| && out[i] == k;
    assert i < |out| - 1 ==> SpanLe(out[i], out[|out| - 1]);
    assert out[|out| - 1].start >= e.start;
  }

  lemma {:induction false} SweepPrefix(sorted: seq<Span>, m: nat)
    requires m <= |sorted|
    ensures Sweep(sorted[..m]) <= Sweep(sorted)
    ensures forall i :: |Sweep(sorted[..m])| <= i < |Sweep(sorted)| ==> Sweep(sorted)[i] in sorted[m..]
    decreases |sorted|
  {
    if m == |sorted| {
      assert sorted[..m] == sorted;
    } else {
      var init := sorted[..|sorted| - 1];
      assert init[..m] == sorted[..m];
      SweepPrefix(init, m);
      assert sorted[m..] == init[m..] + [sorted[|sorted| - 1]];
    }
  }

  /** The first index whose span starts beyond `p`. */
  function Beyond(sorted: seq<Span>, p: nat): (m: nat)
    ensures m <= |sorted| && (m < |sorted| ==> sorted[m].start > p) && forall i :: 0 <= i < m ==> sorted[i].start <= p
  {
    if sorted == [] then 0 else if sorted[0].start > p then 0 else 1 + Beyond(sorted[1..], p)
  }

  /** The span after the empty ones is kept although it overlaps the span they hide. */
  lemma HiddenBreaks(sorted: seq<Span>, n: nat, k: Span, e: Span, s: Span)
    requires Sorted(sorted, SpanLe) && Proper(sorted, n) && HiddenBy(sorted, k, e, s) && k in Sweep(sorted)
    ensures !Disjoint(Sweep(sorted))
  {
    var m := Beyond(sorted, k.start);
    StartsApart(sorted, k.start, m, e, s);
    KeptInFront(sorted, k.start, m, k);
    FrontOf(sorted, n, m);
    EmptyIsLast(sorted[..m], n, e);
    NextIsKept(sorted, m);
    SweepPrefix(sorted, m + 1);
    OverlapsLast(Sweep(sorted[..m]), sorted[m], k, Sweep(sorted));
  }

  lemma FrontOf(sorted: seq<Span>, n: nat, m: nat)
    requires m <= |sorted| && Sorted(sorted, SpanLe) && Proper(sorted, n)
    ensures Sorted(sorted[..m], SpanLe) && Proper(sorted[..m], n)
  {
  }

  lemma OverlapsLast(kept: seq<Span>, next: Span, k: Span, out: seq<Span>)
    requires kept + [next] <= out && k in kept && Overlaps(k, next)
    ensures !Disjoint(out)
  {
    var a :| 0 <= a < |kept| && kept[a] == k;
    assert out[a] == k && out[|kept|] == (kept + [next])[|kept|] == next;
  }

  lemma KeptInFront(sorted: seq<Span>, p: nat, m: nat, k: Span)
    requires Sorted(sorted, SpanLe) && m == Beyond(sorted, p) && k in Sweep(sorted) && k.start <= p
    ensures k in Sweep(sorted[..m])
  {
    SweepPrefix(sorted, m);
    var a :| 0 <= a < |Sweep(sorted)| && Sweep(sorted)[a] == k;
    if a < |Sweep(sorted[..m])| {
      assert Sweep(sorted[..m])[a] == k;
    } else {
    }
  }

  /** Nothing that starts later overlaps an empty span. */
  lemma NextIsKept(sorted: seq<Span>, m: nat)
    requires m < |sorted| && Sweep(sorted[..m]) != []
    requires var e := Sweep(sorted[..m])[|Sweep(sorted[..m])| - 1]; e.start == e.end < sorted[m].start
    ensures Sweep(sorted[..m + 1]) == Sweep(sorted[..m]) + [sorted[m]]
  {
    assert sorted[..m + 1][..m] == sorted[..m];
  }

  lemma StartsApart(sorted: seq<Span>, p: nat, m: nat, e: Span, s: Span)
    requires Sorted(sorted, SpanLe) && m == Beyond(sorted, p) && e in sorted && s in sorted && e.start <= p < s.start
    ensures m < |sorted| && sorted[m].start <= s.start && e in sorted[..m]
  {
    var i :| 0 <= i < |sorted| && sorted[i] == s;
    var j :| 0 <= j < |sorted| && sorted[j] == e;
    assert m < i ==> SpanLe(sorted[m], sorted[i]);
    assert sorted[..m][j] == e;
  }

  lemma DisjointHidesNothing(sorted: seq<Span>, n: nat)
    requires Sorted(sorted, SpanLe) && Proper(sorted, n) && Disjoint(Sweep(sorted))
    ensures !Hidden(sorted, n)
  {
    forall k, e, s | HiddenBy(sorted, k, e, s) ensures !Stays(sorted, k, n) {
      SweepKeepsExactly(sorted, k, n);
      if HasRank(Sweep(sorted), k) {
        SweepMembers(sorted);
        var l :| l in Sweep(sorted) && SameRank(l, k);
        HiddenBreaks(sorted, n, l, e, s);
      }
    }
  }

  lemma StaysFurther(sorted: seq<Span>, k: Span, n: nat)
    requires sorted != [] && Sorted(sorted, SpanLe) && Proper(sorted, n) && k in sorted[..|sorted| - 1]
    ensures Stays(sorted[..|sorted| - 1], k, n) <==> Stays(sorted, k, n)
  {
    var init, last := sorted[..|sorted| - 1], sorted[|sorted| - 1];
    var i :| 0 <= i < |init| && init[i] == k;
    assert SpanLe(sorted[i], last) && sorted == init + [last];
    StaysLocally(init, sorted, k, n);
  }

  lemma {:induction false} OverlapHidesSome(sorted: seq<Span>, n: nat)
    requires Sorted(sorted, SpanLe) && Proper(sorted, n) && !Disjoint(Sweep(sorted))
    ensures Hidden(sorted, n)
    decreases |sorted|
  {
    var init := sorted[..|sorted| - 1];
    var out, kept := Sweep(sorted), Sweep(init);
    if !Disjoint(kept) {
      OverlapHidesSome(init, n);
      var k, e, s :| HiddenBy(init, k, e, s) && Stays(init, k, n);
      StaysFurther(sorted, k, n);
      assert HiddenBy(sorted, k, e, s);
    } else {
      var i, j :| 0 <= i < j < |out| && Overlaps(out[i], out[j]);
      OverlapIsHidden(sorted, n, i, j);
      assert kept[i] in kept && SameRank(kept[i], kept[i]);
      SweepMembers(init);
      SweepKeepsExactly(init, kept[i], n);
      StaysFurther(sorted, kept[i], n);
    }
  }

  /** With empty spans allowed, the result is disjoint exactly when no span that stays has an empty span at
      its own start and another span starting inside it. */
  lemma DisjointExactlyWhen(spans: seq<Span>, n: nat)
    requires Proper(spans, n)
    ensures Disjoint(Consolidated(spans)) <==> !Hidden(spans, n)
  {
    var sorted := SortBy(spans, SpanLe);
    SortedSpans(spans);
    forall k, e, s ensures HiddenBy(spans, k, e, s) && Stays(spans, k, n) <==> HiddenBy(sorted, k, e, s) && Stays(sorted, k, n) {
      if k in spans { StaysLocally(sorted, spans, k, n); }
    }
    if Disjoint(Consolidated(spans)) { DisjointHidesNothing(sorted, n); } else { OverlapHidesSome(sorted, n); }
  }

  /** For instance, an empty span at the start of a longer one lets a span inside that one through. */
  lemma EmptySpanBreaksDisjointness()
    ensures var spans := [Span([], 0, 5, Path), Span([], 0, 0, Path), Span([], 1, 3, Path)];
            Consolidated(spans) == spans && Overlaps(spans[0], spans[2])
  {
    var spans := [Span([], 0, 5, Path), Span([], 0, 0, Path), Span([], 1, 3, Path)];
    SortIdempotent(spans, SpanLe);
    assert spans[..2] == [spans[0], spans[1]] && spans[..2][..1] == [spans[0]] && spans[..2][..1][..0] == [];
    assert Sweep(spans[..2][..1]) == [spans[0]];
    assert Sweep(spans[..2]) == [spans[0], spans[1]];
  }
}
