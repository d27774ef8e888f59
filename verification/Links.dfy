/** Both scanners' spans resolved together: what a reader of the text can click. A URL loses to a path that
    starts before it, or with it and runs longer, when no URL removes that path; and there is a text in which
    one does. */
module Links {
  import opened Wrappers
  import opened Bytes
  import opened Overlap
  import opened UrlScan
  import opened PathScan

  /** What the two scanners return for a text. */
  predicate Detected(text: seq<Byte>, urls: seq<Span>, paths: seq<Span>, opts: PathOptions) {
    AllUrlSpans(text, urls, SCHEMES) && AllPathSpans(text, paths, opts)
  }

  predicate IsFound(text: seq<Byte>, s: Span, opts: PathOptions) {
    IsUrlSpan(text, s, SCHEMES) || IsPathSpan(text, s, opts)
  }

  lemma DetectedSpans(text: seq<Byte>, urls: seq<Span>, paths: seq<Span>, opts: PathOptions)
    requires Detected(text, urls, paths, opts)
    ensures NonEmpty(urls + paths) && Proper(urls + paths, |text|)
    ensures forall s :: s in urls + paths ==> IsFound(text, s, opts) && (s in urls <==> s.kind.Url?) && (s in paths <==> s.kind.Path?)
  {
  }

  /** The clickable spans of a text are disjoint and in order, each is one the scanners found, and every
      found span is covered. A found span is clickable exactly when it stays: no found span ahead of it that
      overlaps it does. */
  lemma DetectedLinksResolve(text: seq<Byte>, urls: seq<Span>, paths: seq<Span>, opts: PathOptions)
    requires Detected(text, urls, paths, opts)
    ensures var out := Consolidated(urls + paths);
            && InOrder(out)
            && (forall s :: s in out ==> s in urls + paths && IsFound(text, s, opts))
            && (forall s :: s in urls + paths ==> Covered(s.start, s.end, Ranges(out)))
            && Proper(urls + paths, |text|)
            && (forall s :: s in urls + paths ==> (s in out <==> Stays(urls + paths, s, |text|)))
  {
    var spans := urls + paths;
    var out := Consolidated(spans);
    DetectedSpans(text, urls, paths, opts);
    ConsolidateResolvesOverlaps(spans);
    KeptAreFound(spans);
    forall s | s in spans ensures s in out <==> Stays(spans, s, |text|) {
      KeptExactlyWhen(spans, s, |text|);
      assert SameRank(s, s);
      if HasRank(out, s) {
        var k :| k in out && SameRank(k, s);
      }
    }
  }

  lemma KeptAreFound(spans: seq<Span>)
    ensures forall s :: s in Consolidated(spans) ==> s in spans
  {
    SortedSpans(spans);
    SweepMembers(Sorting.SortBy(spans, SpanLe));
  }

  // ----- the fate of a URL

  /** The path starts before the URL, or with it and runs longer. */
  predicate Outranks(path: Span, url: Span) {
    path.start < url.start || (path.start == url.start && path.end > url.end)
  }

  predicate Threatens(p: Span, u: Span) {
    Overlaps(p, u) && Outranks(p, u)
  }

  /** The URL starts before the path or with it and runs no shorter, and overlaps it. */
  predicate Removes(v: Span, p: Span) {
    Overlaps(v, p) && (v.start < p.start || (v.start == p.start && v.end >= p.end))
  }

  /** A path is clickable exactly when no clickable URL removes it, and a URL exactly when no clickable path
      threatens it. */
  lemma UrlsAndPathsAlternate(text: seq<Byte>, urls: seq<Span>, paths: seq<Span>, opts: PathOptions)
    requires Detected(text, urls, paths, opts)
    ensures var out := Consolidated(urls + paths);
            && (forall u :: u in urls ==> (u in out <==> forall p :: p in paths && Threatens(p, u) ==> p !in out))
            && (forall p :: p in paths ==> (p in out <==> forall v :: v in urls && Removes(v, p) ==> v !in out))
  {
    var spans := urls + paths;
    DetectedSpans(text, urls, paths, opts);
    DetectedLinksResolve(text, urls, paths, opts);
    forall u | u in urls ensures forall t :: t in spans && Before(t, u) && Overlaps(t, u) <==> t in paths && Threatens(t, u) {
      RivalsOfUrl(urls, paths, u);
    }
    forall p | p in paths ensures forall t :: t in spans && Before(t, p) && Overlaps(t, p) <==> t in urls && Removes(t, p) {
      RivalsOfPath(urls, paths, p);
    }
  }

  lemma RivalsOfUrl(urls: seq<Span>, paths: seq<Span>, u: Span)
    requires InOrder(urls) && u in urls && u.kind.Url? && (forall p :: p in paths ==> p.kind.Path?)
    ensures forall t :: t in urls + paths && Before(t, u) && Overlaps(t, u) <==> t in paths && Threatens(t, u)
  {
    forall t | t in urls && Overlaps(t, u) ensures !Before(t, u) { DisjointMembers(urls, t, u); }
  }

  lemma RivalsOfPath(urls: seq<Span>, paths: seq<Span>, p: Span)
    requires InOrder(paths) && p in paths && p.kind.Path? && (forall v :: v in urls ==> v.kind.Url?)
    ensures forall t :: t in urls + paths && Before(t, p) && Overlaps(t, p) <==> t in urls && Removes(t, p)
  {
    forall t | t in paths && Overlaps(t, p) ensures !Before(t, p) { DisjointMembers(paths, t, p); }
  }

  predicate Unrivalled(urls: seq<Span>, p: Span) {
    forall v :: v in urls ==> !Removes(v, p)
  }

  /** A URL that no found path threatens is clickable; one threatened by a path that no URL removes is
      not. */
  lemma UrlFate(text: seq<Byte>, urls: seq<Span>, paths: seq<Span>, opts: PathOptions, u: Span)
    requires Detected(text, urls, paths, opts) && u in urls
    ensures (forall p :: p in paths ==> !Threatens(p, u)) ==> u in Consolidated(urls + paths)
    ensures (exists p :: p in paths && Threatens(p, u) && Unrivalled(urls, p)) ==> u !in Consolidated(urls + paths)
  {
    UrlsAndPathsAlternate(text, urls, paths, opts);
  }

  // ----- a dropped URL

  /** The bytes of `x/ipfs:a.b`. */
  const EXAMPLE: seq<Byte> := [120, 47, 105, 112, 102, 115, 58, 97, 46, 98]

  /** The URL in `x/ipfs:a.b` and the path that is the whole of it are what the scanners find, and only the
      path is clickable. */
  lemma PathSwallowsUrl()
    ensures var opts := PathOptions(None, false, []);
            var urls, paths := [Span(EXAMPLE[2..], 2, 10, Url)], [Span(EXAMPLE, 0, 10, Path)];
            && Detected(EXAMPLE, urls, paths, opts)
            && UrlScan.Scanned(EXAMPLE, urls, 10, SCHEMES) && PathScan.Scanned(EXAMPLE, paths, 10, opts)
            && urls[0] !in Consolidated(urls + paths) && paths[0] in Consolidated(urls + paths)
  {
    var opts := PathOptions(None, false, []);
    var url, path := Span(EXAMPLE[2..], 2, 10, Url), Span(EXAMPLE, 0, 10, Path);
    ExampleUrl();
    ExamplePath(opts);
    SwallowedUrl(EXAMPLE, url, path, opts);
  }

  lemma SwallowedUrl(text: seq<Byte>, url: Span, path: Span, opts: PathOptions)
    requires IsUrlSpan(text, url, SCHEMES) && IsPathSpan(text, path, opts) && Threatens(path, url)
    ensures Detected(text, [url], [path], opts)
    ensures url !in Consolidated([url] + [path]) && path in Consolidated([url] + [path])
  {
    UrlsAndPathsAlternate(text, [url], [path], opts);
    assert path in [path] && url in [url];
  }

  lemma ExampleScheme()
    ensures SchemeOfLength(EXAMPLE, 2, 5, SCHEMES)
  {
    var scheme := Ascii("ipfs:");
    assert scheme == [105, 112, 102, 115, 58] == EXAMPLE[2..7];
    assert SCHEMES[0] == scheme && HasPrefix(EXAMPLE, 2, scheme);
  }

  lemma ExampleCandidate()
    ensures UrlScan.Candidate(EXAMPLE, 2, 5) == EXAMPLE[2..]
  {
    assert ScanEnd(EXAMPLE, 10) == 10 == ScanEnd(EXAMPLE, 9) == ScanEnd(EXAMPLE, 8) == ScanEnd(EXAMPLE, 7);
    var raw := EXAMPLE[2..];
    assert EXAMPLE[2..10] == raw && |raw| == 8 && raw[0] == 105 && raw[7] == 98;
    assert TrimFrom(raw, 0) == 0 && TrimTo(raw, 0, 8) == 8;
  }

  predicate NoSchemeBefore(text: seq<Byte>, i: nat, schemes: seq<seq<Byte>>) {
    forall j :: 0 <= j < i ==> SchemeAt(text, j, schemes).None?
  }

  predicate SchemeOfLength(text: seq<Byte>, i: nat, n: nat, schemes: seq<seq<Byte>>) {
    i + n < |text| && SchemeAt(text, i, schemes).Some? && |SchemeAt(text, i, schemes).value| == n
  }

  /** One URL that runs to the end of the text, and no scheme before it. */
  lemma SoleUrl(text: seq<Byte>, i: nat, n: nat, schemes: seq<seq<Byte>>)
    requires Plain(schemes) && SchemeOfLength(text, i, n, schemes)
    requires UrlScan.Candidate(text, i, n) == text[i..]
    requires NoSchemeBefore(text, i, schemes)
    ensures var span := Span(text[i..], i, |text|, Url);
            IsUrlSpan(text, span, schemes) && UrlScan.Scanned(text, [span], |text|, schemes)
  {
    var span := FoundUrlSpan(text, i, schemes);
    forall j | 0 <= j < |text| && SchemeAt(text, j, schemes).Some? ensures Inside([span], j) {
      assert [span][0].start <= j < [span][0].end;
    }
  }

  lemma ExampleUrl()
    ensures IsUrlSpan(EXAMPLE, Span(EXAMPLE[2..], 2, 10, Url), SCHEMES)
    ensures UrlScan.Scanned(EXAMPLE, [Span(EXAMPLE[2..], 2, 10, Url)], 10, SCHEMES)
  {
    SchemesArePlain();
    ExampleScheme();
    ExampleCandidate();
    NoSchemeEarly();
    SoleUrl(EXAMPLE, 2, 5, SCHEMES);
  }

  predicate HeadsAvoid(schemes: seq<seq<Byte>>, b: Byte) {
    forall p :: p in schemes ==> p != [] && p[0] != b
  }

  lemma NoSchemeInTwo(text: seq<Byte>, schemes: seq<seq<Byte>>)
    requires |text| >= 2 && HeadsAvoid(schemes, text[0]) && HeadsAvoid(schemes, text[1])
    ensures NoSchemeBefore(text, 2, schemes)
  {
  }

  /** No scheme starts with `x` or `/`. */
  lemma HeadsDiffer()
    ensures HeadsAvoid(SCHEMES, 120) && HeadsAvoid(SCHEMES, 47)
  {
  }

  lemma NoSchemeEarly()
    ensures NoSchemeBefore(EXAMPLE, 2, SCHEMES)
  {
    HeadsDiffer();
    assert EXAMPLE[0] == 120 && EXAMPLE[1] == 47;
    NoSchemeInTwo(EXAMPLE, SCHEMES);
  }

  /** A text that is one path. */
  lemma SolePath(text: seq<Byte>, opts: PathOptions)
    requires text != [] && RunEnd(text, 0) == |text| && IsPathLike(text, opts)
    ensures var span := Span(text, 0, |text|, Path);
            IsPathSpan(text, span, opts) && PathScan.Scanned(text, [span], |text|, opts)
  {
    var span := Span(text, 0, |text|, Path);
    assert text[0..|text|] == text;
    forall j | 0 <= j < |text| ensures PathScan.Accounted(text, [span], j, opts) {
      assert [span][0].start <= j < [span][0].end;
    }
  }

  lemma ExamplePath(opts: PathOptions)
    requires opts == PathOptions(None, false, [])
    ensures IsPathSpan(EXAMPLE, Span(EXAMPLE, 0, 10, Path), opts)
    ensures PathScan.Scanned(EXAMPLE, [Span(EXAMPLE, 0, 10, Path)], 10, opts)
  {
    assert RunEnd(EXAMPLE, 0) == 10;
    assert EXAMPLE[1] == SLASH && SLASH in EXAMPLE;
    assert RFind(EXAMPLE[..9], DOT) == Some(8) && EXAMPLE[9] != DOT;
    assert Extension(EXAMPLE) == Some([98]);
    SolePath(EXAMPLE, opts);
  }
}
