/** URL detection: a scheme scan over the bytes of a text, and the trimming of each candidate. The scan is
    proved for any list of plain schemes and then used for the program's; what ends a URL and what is trimmed
    off it is told in characters beside the code's byte values. */
module UrlScan {
  import opened Wrappers
  import opened Bytes
  import opened Overlap

  const SCHEMES: seq<seq<Byte>> := [
    Ascii("ipfs:"), Ascii("ipns:"), Ascii("magnet:"), Ascii("mailto:"), Ascii("gemini://"), Ascii("gopher://"),
    Ascii("https://"), Ascii("http://"), Ascii("news:"), Ascii("file://"), Ascii("git://"), Ascii("ssh:"),
    Ascii("ftp://"), Ascii("zed://")]

  /** Angle brackets, quotes, braces, bar, backslash, backtick and caret. */
  const TERMINATORS: set<Byte> := {60, 62, 34, 123, 125, 124, 92, 96, 94, 39}

  predicate IsTerminator(b: Byte) {
    IsAsciiWhitespace(b) || IsAsciiControl(b) || b in TERMINATORS
  }

  // ----- trimming

  predicate IsOuter(b: Byte) {
    IsAsciiWhitespace(b) || IsAsciiControl(b)
  }

  /** The bytes `.,;!?:` and the two quotes. */
  predicate IsTrailing(b: Byte) {
    b == 46 || b == 44 || b == 59 || b == 33 || b == 63 || b == 58 || b == 34 || b == 39
  }

  /** The opener of a closing bracket: `(` for `)`, `[` for `]`, `{` for `}`. */
  function OpenerOf(b: Byte): Option<Byte> {
    if b == 41 then Some(40) else if b == 93 then Some(91) else if b == 125 then Some(123) else None
  }

  /** Whether the byte at `i`, standing last, is trimmed. */
  predicate Trimmable(raw: seq<Byte>, i: nat)
    requires i < |raw|
  {
    || IsAsciiControl(raw[i])
    || IsTrailing(raw[i])
    || (OpenerOf(raw[i]).Some? && OpenerOf(raw[i]).value !in raw[..i])
  }

  function TrimFrom(raw: seq<Byte>, start: nat): (r: nat)
    requires start <= |raw|
    ensures start <= r <= |raw|
    decreases |raw| - start
  {
    if start < |raw| && IsOuter(raw[start]) then TrimFrom(raw, start + 1) else start
  }

  function TrimTo(raw: seq<Byte>, start: nat, end: nat): (r: nat)
    requires start <= end <= |raw|
    ensures start <= r <= end
    decreases end
  {
    if end > start && Trimmable(raw, end - 1) then TrimTo(raw, start, end - 1) else end
  }

  function Trimmed(raw: seq<Byte>): seq<Byte> {
    raw[TrimFrom(raw, 0)..TrimTo(raw, TrimFrom(raw, 0), |raw|)]
  }

  method TrimUrl(raw: seq<Byte>) returns (r: seq<Byte>)
    ensures r == Trimmed(raw)
  {
    var start, end := 0, |raw|;
    while start < end
      invariant start <= end == |raw| && TrimFrom(raw, start) == TrimFrom(raw, 0)
    {
      var b := raw[start];
      if !(IsAsciiWhitespace(b) || IsAsciiControl(b)) { break; }
      start := start + 1;
    }
    while end > start
      invariant start == TrimFrom(raw, 0) <= end <= |raw|
      invariant TrimTo(raw, start, end) == TrimTo(raw, start, |raw|)
      decreases end
    {
      var b := raw[end - 1];
      if IsAsciiControl(b) {
        end := end - 1;
        continue;
      }
      if IsTrailing(b) {
        end := end - 1;
      } else if OpenerOf(b).Some? {
        if OpenerOf(b).value in raw[..end - 1] { return raw[start..end]; }
        end := end - 1;
      } else {
        return raw[start..end];
      }
    }
    return raw[start..end];
  }

  lemma {:induction false} TrimFromStops(raw: seq<Byte>, start: nat)
    requires start <= |raw|
    ensures var r := TrimFrom(raw, start);
            (forall i :: start <= i < r ==> IsOuter(raw[i])) && (r < |raw| ==> !IsOuter(raw[r]))
    decreases |raw| - start
  {
    if start < |raw| && IsOuter(raw[start]) { TrimFromStops(raw, start + 1); }
  }

  lemma {:induction false} TrimToStops(raw: seq<Byte>, start: nat, end: nat)
    requires start <= end <= |raw|
    ensures var r := TrimTo(raw, start, end);
            (forall i :: r <= i < end ==> Trimmable(raw, i)) && (r > start ==> !Trimmable(raw, r - 1))
    decreases end
  {
    if end > start && Trimmable(raw, end - 1) { TrimToStops(raw, start, end - 1); }
  }

  /** Nothing is left to trim: no trailing punctuation, quote or control byte, and a final closing
      bracket has its opener before it inside the result; and the first byte is not blank. */
  lemma TrimmedIsClean(raw: seq<Byte>)
    ensures var t := Trimmed(raw);
            t != [] ==> !IsOuter(t[0]) && !Trimmable(t, |t| - 1)
  {
    var s := TrimFrom(raw, 0);
    var e := TrimTo(raw, s, |raw|);
    TrimFromStops(raw, 0);
    TrimToStops(raw, s, |raw|);
    var t := Trimmed(raw);
    if t != [] && OpenerOf(raw[e - 1]).Some? && OpenerOf(raw[e - 1]).value in raw[..e - 1] {
      var i :| 0 <= i < e - 1 && raw[i] == OpenerOf(raw[e - 1]).value;
      assert i >= s;
      assert t[..|t| - 1][i - s] == raw[i];
    }
  }

  /** The same in characters: the result ends in no sentence punctuation, quote or control character, and in a
      closing bracket only with its opener before it; it begins with no blank. */
  lemma TrimmedReads(raw: seq<Byte>)
    ensures var t := Trimmed(raw);
            t != [] ==>
              var first, last := t[0] as char, t[|t| - 1] as char;
              && first > ' ' && first != '\U{007F}' && last >= ' ' && last != '\U{007F}'
              && last !in {'.', ',', ';', '!', '?', ':', '\"', '\''}
              && (last == ')' ==> '(' as int in t) && (last == ']' ==> '[' as int in t) && (last == '}' ==> '{' as int in t)
  {
    TrimmedIsClean(raw);
    var t := Trimmed(raw);
    if t != [] && OpenerOf(t[|t| - 1]).Some? && OpenerOf(t[|t| - 1]).value in t[..|t| - 1] {
      var i :| 0 <= i < |t| - 1 && t[..|t| - 1][i] == OpenerOf(t[|t| - 1]).value;
      assert t[i] == OpenerOf(t[|t| - 1]).value;
    }
  }

  /** And what trimming cuts off the end is nothing else: each byte cut is a control character, punctuation, a
      quote, or a closing bracket without its opener before it. */
  lemma CutReads(raw: seq<Byte>, i: nat)
    requires i < |raw| && Trimmable(raw, i)
    ensures var c := raw[i] as char;
            || c < ' ' || c == '\U{007F}' || c in {'.', ',', ';', '!', '?', ':', '\"', '\''}
            || (c == ')' && '(' as int !in raw[..i]) || (c == ']' && '[' as int !in raw[..i]) || (c == '}' && '{' as int !in raw[..i])
  {
  }

  /** A URL runs to the first blank, control character or one of the characters no URL holds. */
  lemma TerminatorReads(b: Byte)
    ensures IsTerminator(b) <==>
              b as char <= ' ' || b as char == '\U{007F}' || b as char in {'<', '>', '\"', '{', '}', '|', '\\', '^', '`', '\''}
  {
  }

  /** Trimming is idempotent. */
  lemma TrimIdempotent(raw: seq<Byte>)
    ensures Trimmed(Trimmed(raw)) == Trimmed(raw)
  {
    TrimmedIsClean(raw);
  }

  // ----- the scan, for any list of plain schemes

  /** Lower-case letters, `:` and `/`. */
  predicate IsSchemeByte(b: Byte) {
    97 <= b <= 122 || b == 58 || b == 47
  }

  predicate PlainScheme(p: seq<Byte>) {
    p != [] && forall j :: 0 <= j < |p| ==> IsSchemeByte(p[j])
  }

  predicate Plain(schemes: seq<seq<Byte>>) {
    forall p :: p in schemes ==> PlainScheme(p)
  }

  predicate HasPrefix(text: seq<Byte>, i: nat, p: seq<Byte>) {
    i + |p| <= |text| && text[i..i + |p|] == p
  }

  /** The first scheme of the list that starts at `i`. */
  function SchemeAt(text: seq<Byte>, i: nat, schemes: seq<seq<Byte>>): (r: Option<seq<Byte>>)
    ensures r.Some? ==> r.value in schemes && HasPrefix(text, i, r.value)
  {
    if schemes == [] then None
    else if HasPrefix(text, i, schemes[0]) then Some(schemes[0])
    else SchemeAt(text, i, schemes[1..])
  }

  lemma {:induction false} SchemeAtMissesNone(text: seq<Byte>, i: nat, schemes: seq<seq<Byte>>, p: seq<Byte>)
    requires p in schemes && HasPrefix(text, i, p)
    ensures SchemeAt(text, i, schemes).Some?
  {
    if !HasPrefix(text, i, schemes[0]) { SchemeAtMissesNone(text, i, schemes[1..], p); }
  }

  function ScanEnd(text: seq<Byte>, from: nat): (end: nat)
    requires from <= |text|
    ensures from <= end <= |text|
    ensures forall j :: from <= j < end ==> !IsTerminator(text[j])
    ensures end < |text| ==> IsTerminator(text[end])
    decreases |text| - from
  {
    if from < |text| && !IsTerminator(text[from]) then ScanEnd(text, from + 1) else from
  }

  /** The trimmed candidate that starts at `i` with a scheme of length `n`. */
  function Candidate(text: seq<Byte>, i: nat, n: nat): seq<Byte>
    requires i + n <= |text|
  {
    Trimmed(text[i..ScanEnd(text, i + n)])
  }

  /** A scheme occurrence with something after the scheme. */
  predicate HasPayload(text: seq<Byte>, i: nat, schemes: seq<seq<Byte>>) {
    var scheme := SchemeAt(text, i, schemes);
    scheme.Some? && |Candidate(text, i, |scheme.value|)| > |scheme.value|
  }

  /** Trimming a candidate cuts only at its end, before an ASCII byte. */
  lemma TrimmedPrefix(raw: seq<Byte>)
    requires raw != [] && !IsOuter(raw[0])
    ensures var n := |Trimmed(raw)|;
            n <= |raw| && Trimmed(raw) == raw[..n] && (n < |raw| ==> raw[n] < 128)
  {
    TrimToStops(raw, 0, |raw|);
    var n := |Trimmed(raw)|;
    if n < |raw| { assert Trimmable(raw, n); }
  }

  /** A scheme occurrence's candidate is a prefix of the text there, free of terminators, and cut on
      character boundaries. */
  lemma CandidateIsPrefix(text: seq<Byte>, i: nat, scheme: seq<Byte>)
    requires HasPrefix(text, i, scheme) && PlainScheme(scheme)
    ensures var n := |Candidate(text, i, |scheme|)|;
            && i + n <= |text| && Candidate(text, i, |scheme|) == text[i..i + n]
            && (forall j :: i <= j < i + n ==> !IsTerminator(text[j]))
            && IsBoundary(text, i) && IsBoundary(text, i + n)
  {
    var from := i + |scheme|;
    var e := ScanEnd(text, from);
    var raw := text[i..e];
    forall j | i <= j < from ensures IsSchemeByte(text[j]) {
      assert text[i..from][j - i] == scheme[j - i];
    }
    assert raw[0] == text[i];
    TrimmedPrefix(raw);
    var n := |Trimmed(raw)|;
    assert raw[..n] == text[i..i + n];
    if n < |raw| { assert raw[n] == text[i + n]; }
  }

  predicate IsUrlSpan(text: seq<Byte>, s: Span, schemes: seq<seq<Byte>>) {
    && s.kind.Url? && s.start < s.end <= |text|
    && s.href == text[s.start..s.end]
    && IsBoundary(text, s.start) && IsBoundary(text, s.end)
    && (forall j :: s.start <= j < s.end ==> !IsTerminator(text[j]))
    && HasPayload(text, s.start, schemes)
    && s.href == Candidate(text, s.start, |SchemeAt(text, s.start, schemes).value|)
  }

  predicate Inside(spans: seq<Span>, j: nat) {
    exists k :: 0 <= k < |spans| && spans[k].start <= j < spans[k].end
  }

  /** `k` is an occurrence without payload whose scheme spans `j`. */
  predicate BareSchemeOver(text: seq<Byte>, k: nat, j: nat, schemes: seq<seq<Byte>>) {
    var scheme := SchemeAt(text, k, schemes);
    scheme.Some? && !HasPayload(text, k, schemes) && k <= j < k + |scheme.value|
  }

  predicate InBareScheme(text: seq<Byte>, j: nat, schemes: seq<seq<Byte>>) {
    exists k :: 0 <= k <= j && BareSchemeOver(text, k, j, schemes)
  }

  /** Every scheme occurrence before `i` is accounted for. */
  predicate Scanned(text: seq<Byte>, spans: seq<Span>, i: nat, schemes: seq<seq<Byte>>) {
    forall j :: 0 <= j < i && SchemeAt(text, j, schemes).Some? ==> Inside(spans, j) || InBareScheme(text, j, schemes)
  }

  predicate AllUrlSpans(text: seq<Byte>, spans: seq<Span>, schemes: seq<seq<Byte>>) {
    InOrder(spans) && forall k :: 0 <= k < |spans| ==> IsUrlSpan(text, spans[k], schemes)
  }

  /** The scan stands at `i` with everything before it done. */
  predicate ScanState(text: seq<Byte>, spans: seq<Span>, i: nat, schemes: seq<seq<Byte>>) {
    && AllUrlSpans(text, spans, schemes) && Scanned(text, spans, i, schemes)
    && forall k :: 0 <= k < |spans| ==> spans[k].end <= i
  }

  lemma PushScanned(text: seq<Byte>, spans: seq<Span>, span: Span, schemes: seq<seq<Byte>>)
    requires Scanned(text, spans, span.start, schemes)
    ensures Scanned(text, spans + [span], span.end, schemes)
  {
    var more := spans + [span];
    forall j | 0 <= j < span.end && SchemeAt(text, j, schemes).Some? ensures Inside(more, j) || InBareScheme(text, j, schemes) {
      if j >= span.start {
        assert more[|spans|] == span;
      } else if Inside(spans, j) {
        var k :| 0 <= k < |spans| && spans[k].start <= j < spans[k].end;
        assert more[k] == spans[k];
      }
    }
  }

  lemma PushUrlSpan(text: seq<Byte>, spans: seq<Span>, span: Span, schemes: seq<seq<Byte>>)
    requires ScanState(text, spans, span.start, schemes) && IsUrlSpan(text, span, schemes)
    ensures ScanState(text, spans + [span], span.end, schemes)
  {
    PushScanned(text, spans, span, schemes);
  }

  lemma SkipScheme(text: seq<Byte>, spans: seq<Span>, i: nat, schemes: seq<seq<Byte>>)
    requires ScanState(text, spans, i, schemes) && SchemeAt(text, i, schemes).Some? && !HasPayload(text, i, schemes)
    ensures ScanState(text, spans, i + |SchemeAt(text, i, schemes).value|, schemes)
  {
    forall j | i <= j < i + |SchemeAt(text, i, schemes).value| ensures InBareScheme(text, j, schemes) {
      assert BareSchemeOver(text, i, j, schemes);
    }
  }

  lemma FoundUrlSpan(text: seq<Byte>, i: nat, schemes: seq<seq<Byte>>) returns (span: Span)
    requires Plain(schemes) && HasPayload(text, i, schemes)
    ensures var href := Candidate(text, i, |SchemeAt(text, i, schemes).value|);
            span == Span(href, i, i + |href|, Url) && IsUrlSpan(text, span, schemes)
  {
    var scheme := SchemeAt(text, i, schemes).value;
    CandidateIsPrefix(text, i, scheme);
    var href := Candidate(text, i, |scheme|);
    span := Span(href, i, i + |href|, Url);
  }

  /** The scan: it makes progress on every text and returns increasing disjoint spans; each starts with
      a known scheme, has payload, holds no terminator, equals the slice it names and is cut on
      character boundaries. No scheme occurrence is missed: each lies in a span or in a scheme without
      payload. */
  method ScanUrls(text: seq<Byte>, schemes: seq<seq<Byte>>) returns (spans: seq<Span>)
    requires Plain(schemes)
    ensures AllUrlSpans(text, spans, schemes)
    ensures Scanned(text, spans, |text|, schemes)
  {
    spans := [];
    var i := 0;
    while i < |text|
      invariant i <= |text| && ScanState(text, spans, i, schemes)
    {
      spans, i := ScanAt(text, spans, i, schemes);
    }
  }

  /** The loop body: one position, one scheme or one span. */
  method ScanAt(text: seq<Byte>, before: seq<Span>, i: nat, schemes: seq<seq<Byte>>) returns (spans: seq<Span>, next: nat)
    requires Plain(schemes) && i < |text| && ScanState(text, before, i, schemes)
    ensures i < next <= |text| && ScanState(text, spans, next, schemes)
  {
    spans := before;
    var scheme := SchemeAt(text, i, schemes);
    if scheme.None? { return spans, i + 1; }
    var len := |scheme.value|;
    assert PlainScheme(scheme.value);
    var trimmed := TakeCandidate(text, i, len);
    if |trimmed| > len {
      ghost var found := FoundUrlSpan(text, i, schemes);
      var span := Span(trimmed, i, i + |trimmed|, Url);
      PushUrlSpan(text, spans, span, schemes);
      spans, next := spans + [span], i + |trimmed|;
    } else {
      SkipScheme(text, spans, i, schemes);
      next := i + len;
    }
  }

  method TakeCandidate(text: seq<Byte>, i: nat, n: nat) returns (trimmed: seq<Byte>)
    requires i + n <= |text|
    ensures trimmed == Candidate(text, i, n)
  {
    var end := i + n;
    while end < |text| && !IsTerminator(text[end])
      invariant i + n <= end <= |text|
      invariant ScanEnd(text, end) == ScanEnd(text, i + n)
    {
      end := end + 1;
    }
    trimmed := TrimUrl(text[i..end]);
  }

  predicate PlainText(s: string) {
    s != "" && forall j :: 0 <= j < |s| ==> 'a' <= s[j] <= 'z' || s[j] == ':' || s[j] == '/'
  }

  lemma AsciiPlain(s: string)
    requires PlainText(s)
    ensures PlainScheme(Ascii(s))
  {
    forall j | 0 <= j < |s| ensures IsSchemeByte(Ascii(s)[j]) {
      assert 'a' <= s[j] <= 'z' || s[j] == ':' || s[j] == '/';
    }
  }

  lemma SchemesArePlain()
    ensures Plain(SCHEMES)
  {
    AsciiPlain("ipfs:");
    AsciiPlain("ipns:");
    AsciiPlain("magnet:");
    AsciiPlain("mailto:");
    AsciiPlain("gemini://");
    AsciiPlain("gopher://");
    AsciiPlain("https://");
    AsciiPlain("http://");
    AsciiPlain("news:");
    AsciiPlain("file://");
    AsciiPlain("git://");
    AsciiPlain("ssh:");
    AsciiPlain("ftp://");
    AsciiPlain("zed://");
  }

  /** The schemes the program knows. */
  lemma KnownSchemes(w: string)
    requires w in {"ipfs:", "ipns:", "magnet:", "mailto:", "gemini://", "gopher://", "https://", "http://", "news:",
                   "file://", "git://", "ssh:", "ftp://", "zed://"}
    ensures Ascii(w) in SCHEMES && |SCHEMES| == 14
  {
  }

  /** A scheme is found wherever it stands, and a URL is the scheme with something behind it. */
  lemma SchemeFoundAnywhere(a: seq<Byte>, w: seq<Byte>, b: seq<Byte>)
    requires w in SCHEMES
    ensures SchemeAt(a + w + b, |a|, SCHEMES).Some?
  {
    var text := a + w + b;
    assert text[|a|..|a| + |w|] == w;
    SchemeAtMissesNone(text, |a|, SCHEMES, w);
  }

  lemma UrlSpanReads(text: seq<Byte>, s: Span) returns (w: seq<Byte>)
    requires IsUrlSpan(text, s, SCHEMES)
    ensures w in SCHEMES && |w| < |s.href| && s.href[..|w|] == w && s.href == text[s.start..s.end]
    ensures forall j :: 0 <= j < |s.href| ==> !IsTerminator(s.href[j])
  {
    w := SchemeAt(text, s.start, SCHEMES).value;
    assert text[s.start..s.start + |w|] == w;
    assert s.href[..|w|] == text[s.start..s.start + |w|];
  }

  method DetectUrls(text: seq<Byte>) returns (spans: seq<Span>)
    ensures AllUrlSpans(text, spans, SCHEMES)
    ensures Scanned(text, spans, |text|, SCHEMES)
  {
    SchemesArePlain();
    spans := ScanUrls(text, SCHEMES);
  }
}
