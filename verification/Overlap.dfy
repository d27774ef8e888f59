/** Clickable spans and the resolution of their overlaps: sort by start, length and kind, keep what does not
    overlap the last kept one. What is kept can be told from the input alone by a recursion on rank: a span
    stays when nothing ahead of it that overlaps it does. */
module Overlap {
  import opened Bytes
  import opened Sorting

  datatype UrlKind = Url | Path

  datatype Span = Span(href: seq<Byte>, start: nat, end: nat, kind: UrlKind)

  predicate Overlaps(a: Span, b: Span) {
    a.start < b.end && b.start < a.end
  }

  function Priority(kind: UrlKind): nat {
    if kind.Url? then 0 else 1
  }

  /** Earlier start, then longer, then URL before path. */
  predicate SpanLe(a: Span, b: Span) {
    a.start < b.start
    || (a.start == b.start && (a.end > b.end || (a.end == b.end && Priority(a.kind) <= Priority(b.kind))))
  }

  /** The sweep over sorted spans: keep what does not overlap the last kept one. */
  function Sweep(sorted: seq<Span>): seq<Span> {
    if sorted == [] then [] else
    Pushed(Sweep(sorted[..|sorted| - 1]), sorted[|sorted| - 1])
  }

  function Consolidated(spans: seq<Span>): seq<Span> {
    Sweep(SortBy(spans, SpanLe))
  }

  method Consolidate(spans: seq<Span>) returns (out: seq<Span>)
    ensures out == Consolidated(spans)
  {
    var sorted := SortBy(spans, SpanLe);
    out := [];
    for i := 0 to |sorted|
      invariant out == Sweep(sorted[..i])
    {
      assert sorted[..i + 1][..i] == sorted[..i];
      if out == [] || !Overlaps(out[|out| - 1], sorted[i]) { out := out + [sorted[i]]; }
    }
    assert sorted[..|sorted|] == sorted;
  }

  predicate Covered(start: nat, end: nat, covered: seq<(nat, nat)>) {
    exists i :: 0 <= i < |covered| && covered[i].0 < end && start < covered[i].1
  }

  method IsCovered(start: nat, end: nat, covered: seq<(nat, nat)>) returns (r: bool)
    ensures r <==> Covered(start, end, covered)
  {
    for i := 0 to |covered|
      invariant forall k :: 0 <= k < i ==> !(covered[k].0 < end && start < covered[k].1)
    {
      if covered[i].0 < end && start < covered[i].1 { return true; }
    }
    return false;
  }

  predicate Within(x: nat, start: nat, end: nat) {
    start <= x < end
  }

  /** For non-empty ranges, to overlap is to share a position. */
  lemma OverlapSharesAPosition(a: Span, b: Span)
    requires a.start < a.end && b.start < b.end
    ensures Overlaps(a, b) <==> exists x :: Within(x, a.start, a.end) && Within(x, b.start, b.end)
  {
    var x := if a.start < b.start then b.start else a.start;
    assert Overlaps(a, b) ==> Within(x, a.start, a.end) && Within(x, b.start, b.end);
  }

  lemma CoveredSharesAPosition(start: nat, end: nat, covered: seq<(nat, nat)>)
    requires start < end && forall i :: 0 <= i < |covered| ==> covered[i].0 < covered[i].1
    ensures Covered(start, end, covered) <==>
              exists i, x :: 0 <= i < |covered| && Within(x, covered[i].0, covered[i].1) && Within(x, start, end)
  {
    if Covered(start, end, covered) {
      var i :| 0 <= i < |covered| && covered[i].0 < end && start < covered[i].1;
      var x := if start < covered[i].0 then covered[i].0 else start;
      assert Within(x, covered[i].0, covered[i].1) && Within(x, start, end);
    }
    if i, x :| 0 <= i < |covered| && Within(x, covered[i].0, covered[i].1) && Within(x, start, end) {
      assert covered[i].0 < end && start < covered[i].1;
    }
  }

  function Ranges(spans: seq<Span>): seq<(nat, nat)> {
    seq(|spans|, i requires 0 <= i < |spans| => (spans[i].start, spans[i].end))
  }

  // ----- what consolidation guarantees

  predicate NonEmpty(spans: seq<Span>) {
    forall s :: s in spans ==> s.start < s.end
  }

  predicate InOrder(spans: seq<Span>) {
    forall i, j :: 0 <= i < j < |spans| ==> spans[i].end <= spans[j].start
  }

  /** Some kept span overlaps `s` and ranks no later. */
  predicate Beaten(kept: seq<Span>, s: Span) {
    exists i :: 0 <= i < |kept| && Overlaps(kept[i], s) && SpanLe(kept[i], s)
  }

  lemma {:induction false} SweepKeepsSpans(sorted: seq<Span>)
    ensures multiset(Sweep(sorted)) <= multiset(sorted)
  {
    if sorted == [] {
    } else {
      SweepKeepsSpans(sorted[..|sorted| - 1]);
      assert sorted == sorted[..|sorted| - 1] + [sorted[|sorted| - 1]];
    }
  }

  lemma SubBagMember(out: seq<Span>, spans: seq<Span>, i: nat)
    requires multiset(out) <= multiset(spans) && i < |out|
    ensures out[i] in spans
  {
    assert out[i] in multiset(out);
    assert out[i] in multiset(spans);
  }

  /** The last kept span does not rank after the next one. */
  lemma LastKeptRanks(sorted: seq<Span>)
    requires Sorted(sorted, SpanLe) && sorted != []
    ensures var kept := Sweep(sorted[..|sorted| - 1]);
            kept != [] ==> SpanLe(kept[|kept| - 1], sorted[|sorted| - 1]) && kept[|kept| - 1] in sorted
  {
    var init := sorted[..|sorted| - 1];
    var kept := Sweep(init);
    SweepKeepsSpans(init);
    if kept != [] {
      SubBagMember(kept, init, |kept| - 1);
      var i :| 0 <= i < |init| && init[i] == kept[|kept| - 1];
      assert sorted[i] == init[i];
    }
  }

  /** The loop compares with the last kept span only, yet on sorted non-empty spans the kept ones are
      pairwise disjoint and in order. */
  lemma {:induction false} SweepInOrder(sorted: seq<Span>)
    requires Sorted(sorted, SpanLe) && NonEmpty(sorted)
    ensures InOrder(Sweep(sorted))
  {
    if sorted == [] {
    } else {
      var init, span := sorted[..|sorted| - 1], sorted[|sorted| - 1];
      assert span in sorted && forall s :: s in init ==> s in sorted;
      SweepInOrder(init);
      LastKeptRanks(sorted);
      assert Sweep(sorted) == Pushed(Sweep(init), span);
    }
  }

  /** One step of the sweep. */
  function Pushed(kept: seq<Span>, span: Span): seq<Span> {
    if kept != [] && Overlaps(kept[|kept| - 1], span) then kept else kept + [span]
  }

  lemma BeatenGrows(kept: seq<Span>, more: seq<Span>, s: Span)
    requires Beaten(kept, s) && kept <= more
    ensures Beaten(more, s)
  {
    var i :| 0 <= i < |kept| && Overlaps(kept[i], s) && SpanLe(kept[i], s);
    assert more[i] == kept[i];
  }

  lemma {:induction false} SweepBeats(sorted: seq<Span>, i: nat)
    requires Sorted(sorted, SpanLe) && i < |sorted| && sorted[i].start < sorted[i].end
    ensures Beaten(Sweep(sorted), sorted[i])
    decreases |sorted|
  {
    var init, span := sorted[..|sorted| - 1], sorted[|sorted| - 1];
    var kept, out := Sweep(init), Sweep(sorted);
    if i < |init| {
      SweepBeats(init, i);
      BeatenGrows(kept, out, sorted[i]);
    } else {
      LastKeptRanks(sorted);
      var k := |out| - 1;
      assert Overlaps(out[k], span) && SpanLe(out[k], span);
    }
  }

  /** For non-empty spans the result is a start-sorted, pairwise disjoint sublist of the input, every
      input span is reported covered by the result's ranges, and among the spans it competes with the
      kept one starts earlier, or is longer, or is a URL of the same range. */
  lemma ConsolidateResolvesOverlaps(spans: seq<Span>)
    requires NonEmpty(spans)
    ensures InOrder(Consolidated(spans)) && multiset(Consolidated(spans)) <= multiset(spans)
    ensures forall s :: s in spans ==> Beaten(Consolidated(spans), s) && Covered(s.start, s.end, Ranges(Consolidated(spans)))
  {
    var sorted := SortBy(spans, SpanLe);
    SortSorts(spans, SpanLe);
    SortPermutes(spans, SpanLe);
    SameElements(sorted, spans);
    SweepInOrder(sorted);
    SweepKeepsSpans(sorted);
    forall s | s in spans ensures Beaten(Consolidated(spans), s) && Covered(s.start, s.end, Ranges(Consolidated(spans))) {
      var i :| 0 <= i < |sorted| && sorted[i] == s;
      SweepBeats(sorted, i);
      BeatenIsCovered(Consolidated(spans), s);
    }
  }

  lemma BeatenIsCovered(out: seq<Span>, s: Span)
    requires Beaten(out, s)
    ensures Covered(s.start, s.end, Ranges(out))
  {
    var i :| 0 <= i < |out| && Overlaps(out[i], s) && SpanLe(out[i], s);
    assert Ranges(out)[i] == (out[i].start, out[i].end);
  }

  /** Spans in order are a fixpoint of the sweep. */
  lemma {:induction false} SweepIdle(spans: seq<Span>)
    requires InOrder(spans)
    ensures Sweep(spans) == spans
  {
    if spans == [] {
    } else {
      SweepIdle(spans[..|spans| - 1]);
    }
  }

  /** Consolidating again changes nothing. */
  lemma ConsolidateIdempotent(spans: seq<Span>)
    requires NonEmpty(spans)
    ensures Consolidated(Consolidated(spans)) == Consolidated(spans)
  {
    ConsolidateResolvesOverlaps(spans);
    var out := Consolidated(spans);
    forall i, j | 0 <= i < j < |out| ensures SpanLe(out[i], out[j]) {
      SubBagMember(out, spans, i);
    }
    SortIdempotent(out, SpanLe);
    SweepIdle(out);
  }

  // ----- which spans are kept, told from the input alone

  /** `a` is strictly ahead of `b` in the sort. */
  predicate Before(a: Span, b: Span) {
    SpanLe(a, b) && !SpanLe(b, a)
  }

  predicate SameRank(a: Span, b: Span) {
    SpanLe(a, b) && SpanLe(b, a)
  }

  predicate Proper(spans: seq<Span>, n: nat) {
    forall s :: s in spans ==> s.start <= s.end <= n
  }

  /** `s` stays: nothing ahead of it that overlaps it stays. The recursion climbs in rank; `n` bounds the
      ends. */
  predicate Stays(spans: seq<Span>, s: Span, n: nat)
    requires Proper(spans, n) && s.end <= n
    decreases s.start, n - s.end, Priority(s.kind)
  {
    forall t :: t in spans && Before(t, s) && Overlaps(t, s) ==> !Stays(spans, t, n)
  }

  predicate Disjoint(spans: seq<Span>) {
    forall i, j :: 0 <= i < j < |spans| ==> !Overlaps(spans[i], spans[j])
  }

  predicate HasRank(spans: seq<Span>, s: Span) {
    exists k :: k in spans && SameRank(k, s)
  }

  lemma DisjointMembers(spans: seq<Span>, a: Span, b: Span)
    requires Disjoint(spans) && a in spans && b in spans && Overlaps(a, b)
    ensures a == b
  {
  }

  /** Beside a kept span, nothing of an overlapping rank ahead of it is kept. */
  lemma RivalIsOut(out: seq<Span>, k: Span, t: Span)
    requires Disjoint(out) && k in out && Overlaps(t, k) && Before(t, k)
    ensures !HasRank(out, t)
  {
    forall l | l in out && Overlaps(l, k) ensures l == k { DisjointMembers(out, l, k); }
  }

  lemma SweepMembers(sorted: seq<Span>)
    ensures forall s :: s in Sweep(sorted) ==> s in sorted
  {
    SweepKeepsSpans(sorted);
    forall s | s in Sweep(sorted) ensures s in sorted {
      var i :| 0 <= i < |Sweep(sorted)| && Sweep(sorted)[i] == s;
      SubBagMember(Sweep(sorted), sorted, i);
    }
  }

  /** A sweep whose result is disjoint keeps, of every rank, exactly the spans that stay. */
  lemma {:induction false} SweepKeepsExactly(sorted: seq<Span>, s: Span, n: nat)
    requires Sorted(sorted, SpanLe) && Proper(sorted, n) && Disjoint(Sweep(sorted))
    requires s in sorted && s.start < s.end
    ensures HasRank(Sweep(sorted), s) <==> Stays(sorted, s, n)
    decreases s.start, n - s.end, Priority(s.kind)
  {
    var out := Sweep(sorted);
    SweepMembers(sorted);
    if HasRank(out, s) {
      var k :| k in out && SameRank(k, s);
      forall t | t in sorted && Before(t, s) && Overlaps(t, s) ensures !Stays(sorted, t, n) {
        SweepKeepsExactly(sorted, t, n);
        RivalIsOut(out, k, t);
      }
    } else {
      var i :| 0 <= i < |sorted| && sorted[i] == s;
      SweepBeats(sorted, i);
      var j :| 0 <= j < |out| && Overlaps(out[j], s) && SpanLe(out[j], s);
      var t := out[j];
      assert t in out && Before(t, s) && SameRank(t, t);
      SweepKeepsExactly(sorted, t, n);
    }
  }

  /** Only what is ahead of a span decides whether it stays. */
  lemma {:induction false} StaysLocally(a: seq<Span>, b: seq<Span>, s: Span, n: nat)
    requires Proper(a, n) && Proper(b, n) && s.end <= n
    requires forall t :: Before(t, s) ==> (t in a <==> t in b)
    ensures Stays(a, s, n) <==> Stays(b, s, n)
    decreases s.start, n - s.end, Priority(s.kind)
  {
    forall t | (t in a || t in b) && Before(t, s) && Overlaps(t, s) ensures Stays(a, t, n) <==> Stays(b, t, n) {
      StaysLocally(a, b, t, n);
    }
  }

  lemma SortedSpans(spans: seq<Span>)
    ensures var sorted := SortBy(spans, SpanLe);
            Sorted(sorted, SpanLe) && (forall s :: s in sorted <==> s in spans)
  {
    SortSorts(spans, SpanLe);
    SortPermutes(spans, SpanLe);
    SameElements(SortBy(spans, SpanLe), spans);
  }

  /** For non-empty spans a span, or another of its range and kind, is kept exactly when it stays. */
  lemma KeptExactlyWhen(spans: seq<Span>, s: Span, n: nat)
    requires NonEmpty(spans) && Proper(spans, n) && s in spans
    ensures HasRank(Consolidated(spans), s) <==> Stays(spans, s, n)
  {
    var sorted := SortBy(spans, SpanLe);
    SortedSpans(spans);
    ConsolidateResolvesOverlaps(spans);
    SweepKeepsExactly(sorted, s, n);
    StaysLocally(sorted, spans, s, n);
  }
}
