/** Filesystem-path detection over the bytes of a text. A candidate is a maximal run of path bytes with a slash,
    from the places where one may start; it is kept when it looks like a path, and what that means is told in
    characters beside the code's byte values. */
module PathScan {
  import opened Wrappers
  import opened Bytes
  import opened Overlap

  /** `existsUnderCwd` answers whether a candidate exists, resolved against the working directory; without a
      working directory it is not consulted. */
  datatype PathOptions = PathOptions(
    existsUnderCwd: Option<seq<Byte> -> bool>,
    enableLineCol: bool,
    knownExtensions: seq<seq<Byte>>)

  const SLASH: Byte := 47
  const DOT: Byte := 46
  const COLON: Byte := 58
  const DASH: Byte := 45

  // ----- what a path looks like

  function RFind(s: seq<Byte>, b: Byte): (r: Option<nat>)
    ensures r.Some? ==> r.value < |s| && s[r.value] == b
  {
    if s == [] then None
    else if s[|s| - 1] == b then Some(|s| - 1)
    else RFind(s[..|s| - 1], b)
  }

  function Find(s: seq<Byte>, b: Byte): (r: Option<nat>)
    ensures r.Some? ==> r.value < |s| && s[r.value] == b
  {
    if s == [] then None
    else if s[0] == b then Some(0)
    else
      var rest := Find(s[1..], b);
      if rest.Some? then Some(1 + rest.value) else None
  }

  predicate Digits(s: seq<Byte>) {
    s != [] && forall i :: 0 <= i < |s| ==> IsAsciiDigit(s[i])
  }

  lemma DigitsRead(s: seq<Byte>)
    ensures Digits(s) <==> |s| >= 1 && forall i :: 0 <= i < |s| ==> '0' <= s[i] as char <= '9'
  {
  }

  function Extension(candidate: seq<Byte>): Option<seq<Byte>> {
    var dot := RFind(candidate, DOT);
    if dot.None? then None else
    var ext := candidate[dot.value + 1..];
    if ext != [] && SLASH !in ext then Some(ext) else None
  }

  predicate HeuristicExtension(ext: seq<Byte>) {
    1 <= |ext| <= 10 && forall i :: 0 <= i < |ext| ==> IsAsciiAlphanumeric(ext[i])
  }

  /** Digits, or two digit runs joined by a colon or a dash, after the last colon. */
  predicate HasLineAnchor(candidate: seq<Byte>) {
    var colon := RFind(candidate, COLON);
    colon.Some? && IsAnchor(candidate[colon.value + 1..])
  }

  predicate IsAnchor(after: seq<Byte>) {
    var col, dash := Find(after, COLON), Find(after, DASH);
    if col.Some? then Digits(after[..col.value]) && Digits(after[col.value + 1..])
    else if dash.Some? then Digits(after[..dash.value]) && Digits(after[dash.value + 1..])
    else Digits(after)
  }

  lemma {:induction false} RFindIsLast(s: seq<Byte>, b: Byte)
    ensures var r := RFind(s, b); if r.Some? then b !in s[r.value + 1..] else b !in s
  {
    if s == [] {
    } else {
      var init := s[..|s| - 1];
      RFindIsLast(init, b);
      assert s == init + [s[|s| - 1]];
      if s[|s| - 1] != b && RFind(init, b).Some? {
        var k := RFind(init, b).value + 1;
        assert s[k..] == init[k..] + [s[|s| - 1]];
      }
    }
  }

  lemma LastIsUnique(s: seq<Byte>, b: Byte, j: nat, k: nat)
    requires j < |s| && k < |s| && s[j] == s[k] == b && b !in s[j + 1..] && b !in s[k + 1..]
    ensures j == k
  {
  }

  lemma FirstIsUnique(s: seq<Byte>, b: Byte, j: nat, k: nat)
    requires j < |s| && k < |s| && s[j] == s[k] == b && b !in s[..j] && b !in s[..k]
    ensures j == k
  {
  }

  lemma {:induction false} FindIsFirst(s: seq<Byte>, b: Byte)
    ensures var r := Find(s, b); if r.Some? then b !in s[..r.value] else b !in s
  {
    if s == [] {
    } else {
      FindIsFirst(s[1..], b);
      assert s == [s[0]] + s[1..];
      var r := Find(s, b);
      if r.Some? && r.value > 0 { assert s[..r.value] == [s[0]] + s[1..][..r.value - 1]; }
    }
  }

  /** An extension is what follows the last dot, when that is something without a slash: exactly the suffix that
      has a dot before it and neither dot nor slash in it. */
  lemma ExtensionMeans(candidate: seq<Byte>, ext: seq<Byte>)
    ensures Extension(candidate) == Some(ext) <==>
              && ext != [] && '/' as int !in ext && '.' as int !in ext
              && |ext| < |candidate| && candidate[|candidate| - |ext|..] == ext
              && candidate[|candidate| - |ext| - 1] == '.' as int
  {
    RFindIsLast(candidate, DOT);
    var dot := RFind(candidate, DOT);
    if dot.Some? {
      assert candidate[dot.value + 1..] == candidate[|candidate| - (|candidate| - dot.value - 1)..];
      if ext != [] && |ext| < |candidate| && candidate[|candidate| - |ext|..] == ext && DOT !in ext
         && candidate[|candidate| - |ext| - 1] == DOT {
        var k := |candidate| - |ext| - 1;
        LastIsUnique(candidate, DOT, k, dot.value);
      }
    }
  }

  /** Digits, or two digit runs joined by a dash, behind the last colon. */
  predicate Anchored(after: seq<Byte>) {
    Digits(after) || exists d :: 0 <= d < |after| && after[d] == '-' as int && Digits(after[..d]) && Digits(after[d + 1..])
  }

  lemma {:induction false} DashInDigits(s: seq<Byte>)
    requires Digits(s)
    ensures DASH !in s && COLON !in s
  {
  }

  /** A candidate has a line anchor exactly when some colon is followed by a line number or a range of two; the
      column form is a line number behind its own colon. */
  lemma LineAnchorMeans(candidate: seq<Byte>)
    ensures HasLineAnchor(candidate) <==> exists k :: AnchorAt(candidate, k)
  {
    RFindIsLast(candidate, COLON);
    var colon := RFind(candidate, COLON);
    if colon.Some? { AnchorAfter(candidate[colon.value + 1..]); }
    if k :| AnchorAt(candidate, k) { AnchorIsLast(candidate, k); }
    if HasLineAnchor(candidate) { assert AnchorAt(candidate, colon.value); }
  }

  predicate AnchorAt(candidate: seq<Byte>, k: int) {
    0 <= k < |candidate| && candidate[k] == ':' as int && Anchored(candidate[k + 1..])
  }

  lemma AnchorIsLast(candidate: seq<Byte>, k: nat)
    requires AnchorAt(candidate, k)
    ensures RFind(candidate, COLON) == Some(k)
  {
    RFindIsLast(candidate, COLON);
    AnchorHasNoColon(candidate[k + 1..]);
    assert COLON in candidate;
    LastIsUnique(candidate, COLON, k, RFind(candidate, COLON).value);
  }

  lemma AnchorHasNoColon(after: seq<Byte>)
    requires Anchored(after)
    ensures COLON !in after
  {
    if Digits(after) {
      DashInDigits(after);
    } else {
      var d :| 0 <= d < |after| && after[d] == DASH && Digits(after[..d]) && Digits(after[d + 1..]);
      DashInDigits(after[..d]);
      DashInDigits(after[d + 1..]);
      assert after == after[..d] + [DASH] + after[d + 1..];
    }
  }

  lemma AnchorAfter(after: seq<Byte>)
    requires COLON !in after
    ensures Anchored(after) <==> IsAnchor(after)
  {
    FindIsFirst(after, COLON);
    FindIsFirst(after, DASH);
    var dash := Find(after, DASH);
    if Digits(after) { DashInDigits(after); }
    forall d | 0 <= d < |after| && after[d] == DASH && Digits(after[..d]) ensures dash == Some(d) {
      DashInDigits(after[..d]);
      assert DASH in after;
      FirstIsUnique(after, DASH, d, dash.value);
    }
  }

  /** A candidate looks like a path exactly when it holds a slash and has a line anchor where those are on, or an
      extension of one to ten letters and digits or a known one, or exists. */
  lemma PathLikeReads(candidate: seq<Byte>, opts: PathOptions)
    ensures IsPathLike(candidate, opts) <==>
              && '/' as int in candidate
              && (|| (opts.enableLineCol && HasLineAnchor(candidate))
                  || (exists ext :: Extension(candidate) == Some(ext) && (ext in opts.knownExtensions
                        || (|ext| <= 10 && forall i :: 0 <= i < |ext| ==> IsLetterOrDigit(ext[i] as char))))
                  || (opts.existsUnderCwd.Some? && opts.existsUnderCwd.value(candidate)))
  {
    if Extension(candidate).Some? {
      var ext := Extension(candidate).value;
      ExtensionMeans(candidate, ext);
      assert forall i :: 0 <= i < |ext| ==> IsAsciiAlphanumeric(ext[i]) == IsLetterOrDigit(ext[i] as char);
    }
  }

  predicate IsLetterOrDigit(c: char) {
    'a' <= c <= 'z' || 'A' <= c <= 'Z' || '0' <= c <= '9'
  }

  /** The bytes a candidate runs over, and what may stand before one that starts with anything. */
  lemma PathBytesRead(b: Byte)
    ensures IsPathByte(b) <==> IsLetterOrDigit(b as char) || b as char in {'.', '_', '-', '@', '/', ':'}
  {
  }

  lemma StartsRead(text: seq<Byte>, i: nat)
    requires i < |text|
    ensures MayStart(text, i) <==>
              || i == 0 || text[i - 1] as char in {' ', '\t', '\n', '(', '[', '\"', '\''}
              || text[i] == '/' as int
              || (i + 1 < |text| && text[i] == '.' as int && text[i + 1] == '/' as int)
              || (i + 2 < |text| && text[i] == '.' as int && text[i + 1] == '.' as int && text[i + 2] == '/' as int)
  {
  }

  predicate IsPathLike(candidate: seq<Byte>, opts: PathOptions) {
    && SLASH in candidate
    && (|| (opts.enableLineCol && HasLineAnchor(candidate))
        || (Extension(candidate).Some?
            && (HeuristicExtension(Extension(candidate).value) || Extension(candidate).value in opts.knownExtensions))
        || (opts.existsUnderCwd.Some? && opts.existsUnderCwd.value(candidate)))
  }

  // ----- candidates

  /** Alphanumerics and `._-@/:`. */
  predicate IsPathByte(b: Byte) {
    IsAsciiAlphanumeric(b) || b == 46 || b == 95 || b == 45 || b == 64 || b == 47 || b == 58
  }

  function RunEnd(text: seq<Byte>, pos: nat): (end: nat)
    requires pos <= |text|
    ensures pos <= end <= |text|
    ensures forall j :: pos <= j < end ==> IsPathByte(text[j])
    ensures end < |text| ==> !IsPathByte(text[end])
    decreases |text| - pos
  {
    if pos < |text| && IsPathByte(text[pos]) then RunEnd(text, pos + 1) else pos
  }

  /** The end of the maximal run from `pos`, when the run holds a slash. */
  function Candidate(text: seq<Byte>, pos: nat): Option<nat>
    requires pos <= |text|
  {
    var end := RunEnd(text, pos);
    if SLASH in text[pos..end] then Some(end) else None
  }

  method CollectCandidate(text: seq<Byte>, pos: nat) returns (r: Option<nat>)
    requires pos <= |text|
    ensures r == Candidate(text, pos)
  {
    var end := pos;
    while end < |text|
      invariant pos <= end <= |text| && RunEnd(text, end) == RunEnd(text, pos)
    {
      if !IsPathByte(text[end]) { break; }
      end := end + 1;
    }
    return if SLASH in text[pos..end] then Some(end) else None;
  }

  /** After a delimiter a candidate may start with anything; elsewhere only as `/`, `./` or `../`. */
  predicate MayStart(text: seq<Byte>, i: nat)
    requires i < |text|
  {
    || i == 0
    || text[i - 1] in {32, 9, 10, 40, 91, 34, 39}
    || text[i] == SLASH
    || (i + 1 < |text| && text[i] == DOT && text[i + 1] == SLASH)
    || (i + 2 < |text| && text[i] == DOT && text[i + 1] == DOT && text[i + 2] == SLASH)
  }

  // ----- the scan

  predicate IsPathSpan(text: seq<Byte>, s: Span, opts: PathOptions) {
    && s.kind.Path? && s.start < s.end <= |text|
    && s.href == text[s.start..s.end]
    && IsBoundary(text, s.start) && IsBoundary(text, s.end)
    && MayStart(text, s.start) && Candidate(text, s.start) == Some(s.end)
    && IsPathLike(s.href, opts)
  }

  predicate AllPathSpans(text: seq<Byte>, spans: seq<Span>, opts: PathOptions) {
    InOrder(spans) && forall k :: 0 <= k < |spans| ==> IsPathSpan(text, spans[k], opts)
  }

  /** A rejected candidate from `k` spans `j`. */
  predicate RejectedOver(text: seq<Byte>, k: nat, j: nat, opts: PathOptions)
    requires k < |text|
  {
    MayStart(text, k) && Candidate(text, k).Some? && k <= j < Candidate(text, k).value
    && !IsPathLike(text[k..RunEnd(text, k)], opts)
  }

  predicate Accounted(text: seq<Byte>, spans: seq<Span>, j: nat, opts: PathOptions)
    requires j < |text|
  {
    || (exists k :: 0 <= k < |spans| && spans[k].start <= j < spans[k].end)
    || (exists k :: 0 <= k <= j && RejectedOver(text, k, j, opts))
  }

  /** Every candidate that may start before `i` lies in a span or in a candidate found wanting. */
  predicate Scanned(text: seq<Byte>, spans: seq<Span>, i: nat, opts: PathOptions)
    requires i <= |text|
  {
    forall j :: 0 <= j < i && MayStart(text, j) && Candidate(text, j).Some? ==> Accounted(text, spans, j, opts)
  }

  predicate ScanState(text: seq<Byte>, spans: seq<Span>, i: nat, opts: PathOptions)
    requires i <= |text|
  {
    && AllPathSpans(text, spans, opts) && Scanned(text, spans, i, opts)
    && forall k :: 0 <= k < |spans| ==> spans[k].end <= i
  }

  lemma FoundPathSpan(text: seq<Byte>, i: nat, opts: PathOptions) returns (s: Span)
    requires IsText(text) && i < |text| && MayStart(text, i) && Candidate(text, i).Some?
    requires IsPathLike(text[i..RunEnd(text, i)], opts)
    ensures s == Span(text[i..RunEnd(text, i)], i, RunEnd(text, i), Path) && IsPathSpan(text, s, opts)
  {
    var end := RunEnd(text, i);
    s := Span(text[i..end], i, end, Path);
    assert IsPathByte(text[i]) && IsPathByte(text[end - 1]);
    AsciiEndsCharacter(text, end - 1);
  }

  lemma PushScanned(text: seq<Byte>, spans: seq<Span>, s: Span, opts: PathOptions)
    requires s.start <= s.end <= |text| && Scanned(text, spans, s.start, opts)
    ensures Scanned(text, spans + [s], s.end, opts)
  {
    var more := spans + [s];
    forall j | 0 <= j < s.end && MayStart(text, j) && Candidate(text, j).Some? ensures Accounted(text, more, j, opts) {
      if j >= s.start {
        assert more[|spans|] == s;
      } else {
        assert Accounted(text, spans, j, opts);
        if k :| 0 <= k < |spans| && spans[k].start <= j < spans[k].end { assert more[k] == spans[k]; }
      }
    }
  }

  lemma PushPathSpan(text: seq<Byte>, spans: seq<Span>, s: Span, opts: PathOptions)
    requires s.start < s.end <= |text| && ScanState(text, spans, s.start, opts) && IsPathSpan(text, s, opts)
    ensures ScanState(text, spans + [s], s.end, opts)
  {
    PushScanned(text, spans, s, opts);
  }

  lemma SkipRejected(text: seq<Byte>, spans: seq<Span>, i: nat, opts: PathOptions)
    requires i < |text| && ScanState(text, spans, i, opts) && MayStart(text, i) && Candidate(text, i).Some?
    requires !IsPathLike(text[i..RunEnd(text, i)], opts)
    ensures ScanState(text, spans, RunEnd(text, i), opts)
  {
    forall j | i <= j < RunEnd(text, i) ensures Accounted(text, spans, j, opts) {
      assert RejectedOver(text, i, j, opts);
    }
  }

  lemma SkipOne(text: seq<Byte>, spans: seq<Span>, i: nat, opts: PathOptions)
    requires i < |text| && ScanState(text, spans, i, opts) && !(MayStart(text, i) && Candidate(text, i).Some?)
    ensures ScanState(text, spans, i + 1, opts)
  {
  }

  /** The loop body: one position, or one candidate kept or passed over. */
  method ScanAt(text: seq<Byte>, before: seq<Span>, i: nat, opts: PathOptions) returns (spans: seq<Span>, next: nat)
    requires IsText(text) && i < |text| && ScanState(text, before, i, opts)
    ensures i < next <= |text| && ScanState(text, spans, next, opts)
  {
    spans := before;
    if !MayStart(text, i) {
      SkipOne(text, spans, i, opts);
      return spans, i + 1;
    }
    var end := CollectCandidate(text, i);
    if end.None? {
      SkipOne(text, spans, i, opts);
      return spans, i + 1;
    }
    next := end.value;
    assert next > i by { assert SLASH in text[i..next]; }
    if IsPathLike(text[i..next], opts) {
      ghost var found := FoundPathSpan(text, i, opts);
      var span := Span(text[i..next], i, next, Path);
      PushPathSpan(text, spans, span, opts);
      spans := spans + [span];
    } else {
      SkipRejected(text, spans, i, opts);
    }
  }

  /** The scan makes progress on every text and returns increasing disjoint spans of maximal path-safe
      runs that look like paths, each equal to the slice it names and cut on character boundaries; every
      possible start lies in a span or in a run that does not look like a path. */
  method DetectPaths(text: seq<Byte>, opts: PathOptions) returns (spans: seq<Span>)
    requires IsText(text)
    ensures AllPathSpans(text, spans, opts)
    ensures Scanned(text, spans, |text|, opts)
  {
    spans := [];
    var i := 0;
    while i < |text|
      invariant i <= |text| && ScanState(text, spans, i, opts)
    {
      spans, i := ScanAt(text, spans, i, opts);
    }
  }
}
