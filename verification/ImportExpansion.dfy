/** Expansion of `@path` imports. Text is a sequence of Unicode scalar values, an absolute path its components,
    the file system a bundle of total functions; comment stripping is one of them, whatever it does. */
module ImportExpansion {
  import opened Wrappers
  import Text

  const MAX_IMPORT_DEPTH: nat := 4

  type Path = seq<string>

  datatype Files = Files(
    canonicalize: Path -> Option<Path>,
    isFile: Path -> bool,
    read: Path -> Option<string>,
    strip: string -> string)

  datatype Context = Context(cwd: Path, home: Option<Path>, allowExternal: bool, files: Files)

  /** One expanded import: the canonical file and the depth its text was expanded at. */
  datatype Hop = Hop(path: Path, depth: nat)

  /** The shared visited set and external list; `hops` records the files expanded so far. */
  datatype Walk = Walk(visited: set<Path>, externals: seq<Path>, hops: seq<Hop>)

  datatype Expansion = Expansion(out: string, walk: Walk)

  datatype Resolution = Resolution(content: Option<string>, walk: Walk)

  type Fence = Option<(char, nat)>

  // ----- text scanning

  predicate IsAsciiWhitespace(c: char) {
    c == ' ' || c == '\t' || c == '\n' || c == '\r' || c == '\U{000C}'
  }

  /** The line through its newline, or the whole rest. */
  function FirstLine(s: string): (line: string)
    ensures line <= s && (s != "" ==> line != "")
  {
    if s == "" then "" else if s[0] == '\n' then s[..1] else [s[0]] + FirstLine(s[1..])
  }

  function Lines(s: string): seq<string> {
    if s == "" then [] else [FirstLine(s)] + Lines(s[|FirstLine(s)|..])
  }

  function Joined(lines: seq<string>): string {
    if lines == [] then "" else lines[0] + Joined(lines[1..])
  }

  lemma {:induction false} LinesJoin(s: string)
    ensures Joined(Lines(s)) == s
    decreases |s|
  {
    if s == "" {
    } else {
      var line := FirstLine(s);
      LinesJoin(s[|line|..]);
      assert Lines(s)[1..] == Lines(s[|line|..]);
      assert s == line + s[|line|..];
    }
  }

  /** A line runs to its newline and holds no other; only the last may lack one. */
  lemma {:induction false} LinesRead(s: string, i: nat)
    requires i < |Lines(s)|
    ensures var line := Lines(s)[i];
            && line != "" && (forall k :: 0 <= k < |line| - 1 ==> line[k] != '\n')
            && (i < |Lines(s)| - 1 ==> line[|line| - 1] == '\n')
    decreases i
  {
    FirstLineReads(s);
    var rest := s[|FirstLine(s)|..];
    if i == 0 {
    } else {
      LinesRead(rest, i - 1);
    }
  }

  lemma {:induction false} FirstLineReads(s: string)
    requires s != ""
    ensures var line := FirstLine(s);
            && (forall k :: 0 <= k < |line| - 1 ==> line[k] != '\n')
            && (line != s ==> line[|line| - 1] == '\n')
  {
    if s[0] != '\n' && |s| > 1 { FirstLineReads(s[1..]); }
  }

  function RunLength(s: string, c: char): (n: nat)
    ensures n <= |s| && (n < |s| ==> s[n] != c)
    ensures s != "" && s[0] == c ==> n > 0
  {
    if s != "" && s[0] == c then 1 + RunLength(s[1..], c) else 0
  }

  function FenceMarker(line: string): Fence {
    var body := Text.TrimStart(line);
    if body == "" || (body[0] != '`' && body[0] != '~') then None
    else if RunLength(body, body[0]) >= 3 then Some((body[0], RunLength(body, body[0]))) else None
  }

  /** A marker is a run of at least three backticks or tildes behind nothing but blanks, with its character and
      its whole length; a line is a fence line exactly when it has one. */
  lemma FenceMarkerMeans(line: string) returns (k: nat)
    ensures k <= |line| && Text.AllWhitespace(line[..k]) && (k < |line| ==> !Text.IsWhitespace(line[k]))
    ensures var m := FenceMarker(line);
            && (m.Some? ==>
                  && (m.value.0 == '`' || m.value.0 == '~') && m.value.1 >= 3 && k + m.value.1 <= |line|
                  && (forall i :: k <= i < k + m.value.1 ==> line[i] == m.value.0)
                  && (k + m.value.1 < |line| ==> line[k + m.value.1] != m.value.0))
            && (k + 2 < |line| && (line[k] == '`' || line[k] == '~') && line[k] == line[k + 1] == line[k + 2] ==> m.Some?)
  {
    k := Text.TrimStartAt(line);
    var body := line[k..];
    if body != "" {
      var c := body[0];
      RunLengthIsRun(body, c);
      var n := RunLength(body, c);
      assert forall i :: k <= i < k + n ==> line[i] == body[i - k];
      assert k + n < |line| ==> line[k + n] == body[n];
      assert n < |body| && n < 3 ==> body[n] == line[k + n];
    }
  }

  /** A fence opens at any marker and closes at one of the same character at least as long. */
  function NextFence(fence: Fence, marker: (char, nat)): Fence {
    if fence.None? then Some(marker)
    else if fence.value.0 == marker.0 && marker.1 >= fence.value.1 then None
    else fence
  }

  /** The offset of the first run of exactly `n` backticks. */
  function FindBacktickRun(s: string, n: nat): (r: Option<nat>)
    ensures r.Some? ==> r.value + n <= |s|
    decreases |s|
  {
    if s == "" then None
    else if s[0] == '`' then
      var len := RunLength(s, '`');
      if len == n then Some(0)
      else
        var rest := FindBacktickRun(s[len..], n);
        if rest.Some? then Some(len + rest.value) else None
    else
      var rest := FindBacktickRun(s[1..], n);
      if rest.Some? then Some(1 + rest.value) else None
  }

  /** A maximal run of exactly `n` backticks at `k`. */
  predicate IsRun(s: string, k: nat, n: nat) {
    && k + n <= |s|
    && (forall i :: k <= i < k + n ==> s[i] == '`')
    && (k > 0 ==> s[k - 1] != '`')
    && (k + n < |s| ==> s[k + n] != '`')
  }

  lemma {:induction false} RunLengthIsRun(s: string, c: char)
    ensures forall i :: 0 <= i < RunLength(s, c) ==> s[i] == c
  {
    if s != "" && s[0] == c {
      RunLengthIsRun(s[1..], c);
      forall i | 1 <= i < RunLength(s, c) ensures s[i] == c { assert s[1..][i - 1] == s[i]; }
    }
  }

  /** A run further on is a run of the rest, and the other way round when the cut is not inside a run. */
  lemma RunShifts(s: string, d: nat, k: nat, n: nat)
    requires d <= |s| && 0 < n
    requires d > 0 && d < |s| && s[d] == '`' ==> s[d - 1] != '`'
    ensures IsRun(s[d..], k, n) <==> IsRun(s, d + k, n)
  {
    var t := s[d..];
    assert forall i :: 0 <= i < |t| ==> t[i] == s[d + i];
    if IsRun(t, k, n) {
      forall i | d + k <= i < d + k + n ensures s[i] == '`' { assert t[i - d] == '`'; }
      assert t[k] == s[d + k];
    }
  }

  /** `r` is the first maximal run of the length, or there is none. */
  predicate IsFirstRun(s: string, n: nat, r: Option<nat>) {
    if r.Some? then IsRun(s, r.value, n) && forall k :: 0 <= k < r.value ==> !IsRun(s, k, n)
    else forall k :: 0 <= k <= |s| ==> !IsRun(s, k, n)
  }

  lemma FirstRunShifts(s: string, d: nat, n: nat, r: Option<nat>)
    requires d <= |s| && 0 < n && IsFirstRun(s[d..], n, r)
    requires d > 0 && d < |s| && s[d] == '`' ==> s[d - 1] != '`'
    requires forall k :: 0 <= k < d ==> !IsRun(s, k, n)
    ensures IsFirstRun(s, n, if r.Some? then Some(d + r.value) else None)
  {
    forall k | d <= k ensures IsRun(s[d..], k - d, n) <==> IsRun(s, k, n) { RunShifts(s, d, k - d, n); }
  }

  /** The search returns the first maximal run of the given length, and nothing exactly when there is
      none. */
  lemma {:induction false} FindBacktickRunIsFirst(s: string, n: nat)
    requires 0 < n
    ensures IsFirstRun(s, n, FindBacktickRun(s, n))
    decreases |s|
  {
    if s == "" {
    } else {
      var len := RunLength(s, '`');
      RunLengthIsRun(s, '`');
      if s[0] == '`' && len == n {
        assert IsRun(s, 0, n);
      } else {
        var d := if s[0] == '`' then len else 1;
        FindBacktickRunIsFirst(s[d..], n);
        forall k | 0 <= k < d ensures !IsRun(s, k, n) { NoRunInside(s, len, k, n); }
        FirstRunShifts(s, d, n, FindBacktickRun(s[d..], n));
      }
    }
  }

  lemma NoRunInside(s: string, len: nat, k: nat, n: nat)
    requires s != "" && len <= |s| && len != n && 0 < n
    requires forall i :: 0 <= i < len ==> s[i] == '`'
    requires len < |s| ==> s[len] != '`'
    requires k < len || (len == 0 && k == 0)
    ensures !IsRun(s, k, n)
  {
  }

  /** An offset in the rest, seen from `d` further ahead. */
  function Shifted(d: nat, r: Option<nat>): Option<nat> {
    if r.Some? then Some(d + r.value) else None
  }

  /** The same search by index. */
  function FindFrom(s: string, i: nat, n: nat): Option<nat>
    requires i <= |s|
    decreases |s| - i
  {
    if i == |s| then None
    else if s[i] != '`' then FindFrom(s, i + 1, n)
    else if RunLength(s[i..], '`') == n then Some(i)
    else FindFrom(s, i + RunLength(s[i..], '`'), n)
  }

  lemma {:induction false} FindFromIs(s: string, i: nat, n: nat)
    requires i <= |s|
    ensures FindFrom(s, i, n) == Shifted(i, FindBacktickRun(s[i..], n))
    decreases |s| - i
  {
    if i == |s| {
    } else if s[i] != '`' {
      FindFromIs(s, i + 1, n);
      assert s[i..][1..] == s[i + 1..];
    } else {
      var len := RunLength(s[i..], '`');
      if len != n {
        FindFromIs(s, i + len, n);
        assert s[i..][len..] == s[i + len..];
      }
    }
  }

  method FindBacktickRunAt(s: string, n: nat) returns (r: Option<nat>)
    ensures r == FindBacktickRun(s, n)
  {
    FindFromIs(s, 0, n);
    assert s[0..] == s;
    r := ScanForRun(s, n);
  }

  method ScanForRun(s: string, n: nat) returns (r: Option<nat>)
    ensures r == FindFrom(s, 0, n)
  {
    var i := 0;
    while i < |s|
      invariant i <= |s| && FindFrom(s, i, n) == FindFrom(s, 0, n)
    {
      if s[i] == '`' {
        var len := RunLength(s[i..], '`');
        if len == n { return Some(i); }
        i := i + len;
      } else {
        i := i + 1;
      }
    }
    return None;
  }

  function TokenLength(s: string): (n: nat)
    ensures n <= |s|
  {
    if s == "" || IsAsciiWhitespace(s[0]) then 0 else 1 + TokenLength(s[1..])
  }

  /** A token runs to the next blank: space, tab, newline, carriage return or form feed. */
  lemma {:induction false} TokenReads(s: string)
    ensures var n := TokenLength(s);
            && (forall k :: 0 <= k < n ==> s[k] !in {' ', '\t', '\n', '\r', '\U{000C}'})
            && (n < |s| ==> s[n] in {' ', '\t', '\n', '\r', '\U{000C}'})
  {
    if s != "" && !IsAsciiWhitespace(s[0]) {
      TokenReads(s[1..]);
      forall k | 1 <= k < TokenLength(s) ensures s[k] !in {' ', '\t', '\n', '\r', '\U{000C}'} { assert s[1..][k - 1] == s[k]; }
    }
  }

  // ----- paths

  function Components(s: string): seq<string> {
    if s == "" then [] else
    if s[0] == '/' then Components(s[1..]) else
    var n := ComponentLength(s);
    [s[..n]] + Components(s[n..])
  }

  function ComponentLength(s: string): (n: nat)
    ensures n <= |s| && (s != "" && s[0] != '/' ==> n > 0)
  {
    if s == "" || s[0] == '/' then 0 else 1 + ComponentLength(s[1..])
  }

  /** An absolute operand replaces the base. */
  function Join(base: Path, s: string): Path {
    if s != "" && s[0] == '/' then Components(s) else base + Components(s)
  }

  function Parent(p: Path): Path {
    if p == [] then [] else p[..|p| - 1]
  }

  predicate Internal(ctx: Context, p: Path) {
    ctx.cwd <= p || (ctx.home.Some? && ctx.home.value + [".claude"] <= p)
  }

  /** The canonical file a token names, if it names one. */
  function Target(ctx: Context, token: string, dir: Path): Option<Path> {
    if token == "" then None
    else if "~/" <= token && ctx.home.None? then None
    else
      var candidate := if "~/" <= token then Join(ctx.home.value, token[2..]) else Join(dir, token);
      var canon := ctx.files.canonicalize(candidate);
      if canon.Some? && ctx.files.isFile(canon.value) then canon else None
  }

  // ----- where a token leads

  lemma {:induction false} ComponentReads(s: string)
    ensures var n := ComponentLength(s);
            (forall k :: 0 <= k < n ==> s[k] != '/') && (n < |s| ==> s[n] == '/')
  {
    if s != "" && s[0] != '/' {
      ComponentReads(s[1..]);
      forall k | 1 <= k < ComponentLength(s) ensures s[k] != '/' { assert s[1..][k - 1] == s[k]; }
    }
  }

  /** A name without a slash is one component; slashes separate, and separate only. */
  lemma NameIsOneComponent(name: string)
    requires name != "" && '/' !in name
    ensures Components(name) == [name] && Components("") == []
  {
    ComponentReads(name);
    assert ComponentLength(name) == |name|;
    assert name[..|name|] == name && name[|name|..] == "";
    assert Components(name[|name|..]) == [];
  }

  lemma {:induction false} SlashSeparates(a: string, b: string)
    ensures Components(a + "/" + b) == Components(a) + Components(b)
    decreases |a|
  {
    var s := a + "/" + b;
    if a == "" {
      assert s[1..] == b;
    } else if a[0] == '/' {
      assert s[1..] == a[1..] + "/" + b;
      SlashSeparates(a[1..], b);
    } else {
      var n := ComponentLength(a);
      ComponentReads(a);
      SameComponent(a, "/" + b);
      assert a + ("/" + b) == s;
      assert s[..n] == a[..n] && s[n..] == a[n..] + "/" + b;
      SlashSeparates(a[n..], b);
    }
  }

  lemma {:induction false} SameComponent(a: string, rest: string)
    requires rest != "" && rest[0] == '/'
    ensures ComponentLength(a + rest) == ComponentLength(a)
    decreases |a|
  {
    if a == "" {
      assert a + rest == rest;
    } else {
      assert (a + rest)[0] == a[0] && (a + rest)[1..] == a[1..] + rest;
      SameComponent(a[1..], rest);
    }
  }

  /** The canonical regular file at a path, if there is one. */
  function FileAt(ctx: Context, path: Path): Option<Path> {
    match ctx.files.canonicalize(path)
    case None => None
    case Some(file) => if ctx.files.isFile(file) then Some(file) else None
  }

  /** An absolute token leads from the root, one behind `~/` from the home directory if there is one, any other
      from the importing file's directory; the empty token leads nowhere. */
  lemma TokenLeads(ctx: Context, t: string, dir: Path, name: string)
    ensures Target(ctx, "", dir) == None
    ensures Target(ctx, "/" + t, dir) == FileAt(ctx, Components(t))
    ensures Target(ctx, "~/" + t, dir) ==
              if ctx.home.None? then None
              else FileAt(ctx, if t != "" && t[0] == '/' then Components(t) else ctx.home.value + Components(t))
    ensures t != "" && t[0] != '/' && !("~/" <= t) ==> Target(ctx, t, dir) == FileAt(ctx, dir + Components(t))
    ensures Parent(dir + [name]) == dir
  {
    assert ("/" + t)[0] == '/' && ("/" + t)[1..] == t;
    assert ("~/" + t)[2..] == t && "~/" <= "~/" + t && ("~/" + t)[0] == '~';
    assert !("~/" <= "/" + t) by { assert "~/"[0] == '~'; }
    assert (dir + [name])[..|dir|] == dir;
  }

  // ----- expansion

  function Fuel(depth: nat): nat {
    if depth < MAX_IMPORT_DEPTH then MAX_IMPORT_DEPTH - depth else 0
  }

  function ResolveAndExpand(ctx: Context, token: string, dir: Path, depth: nat, walk: Walk): Resolution
    decreases Fuel(depth), 0, 0
  {
    var target := Target(ctx, token, dir);
    if depth >= MAX_IMPORT_DEPTH || target.None? || target.value in walk.visited then Resolution(None, walk) else
    var file := target.value;
    var seen := walk.(visited := walk.visited + {file},
                      externals := if Internal(ctx, file) then walk.externals else walk.externals + [file]);
    if !Internal(ctx, file) && !ctx.allowExternal then Resolution(None, seen) else
    var raw := ctx.files.read(file);
    if raw.None? then Resolution(None, seen) else
    var inner := ExpandText(ctx, ctx.files.strip(raw.value), Parent(file), depth + 1,
                            seen.(hops := seen.hops + [Hop(file, depth + 1)]));
    Resolution(Some(inner.out), inner.walk)
  }

  /** The end of the code span a line starts with; an unclosed one takes the rest. */
  function SpanLength(s: string): (n: nat)
    requires s != "" && s[0] == '`'
    ensures 0 < n <= |s|
  {
    var run := RunLength(s, '`');
    var close := FindBacktickRun(s[run..], run);
    if close.None? then |s| else run + close.value + run
  }

  datatype LineStep = LineStep(piece: string, rest: string, prevWs: bool, walk: Walk)

  /** One step along a line, `prevWs` telling whether an `@` here starts a token: a whole code span, a
      token or its expansion, or one character. An unclosed span takes the rest of the line. */
  function Advance(ctx: Context, s: string, prevWs: bool, dir: Path, depth: nat, walk: Walk): (step: LineStep)
    requires s != ""
    ensures |step.rest| < |s|
    decreases Fuel(depth), 1, 0
  {
    if s[0] == '`' then
      LineStep(s[..SpanLength(s)], s[SpanLength(s)..], false, walk)
    else if s[0] == '@' && prevWs then
      var end := 1 + TokenLength(s[1..]);
      var r := ResolveAndExpand(ctx, s[1..end], dir, depth, walk);
      LineStep(if r.content.Some? then r.content.value else s[..end], s[end..], false, r.walk)
    else
      LineStep(s[..1], s[1..], IsAsciiWhitespace(s[0]), walk)
  }

  function ExpandLine(ctx: Context, s: string, prevWs: bool, dir: Path, depth: nat, walk: Walk): Expansion
    decreases Fuel(depth), 2, |s|
  {
    if s == "" then Expansion("", walk) else
    var step := Advance(ctx, s, prevWs, dir, depth, walk);
    var rest := ExpandLine(ctx, step.rest, step.prevWs, dir, depth, step.walk);
    Expansion(step.piece + rest.out, rest.walk)
  }

  function ExpandLines(ctx: Context, lines: seq<string>, fence: Fence, dir: Path, depth: nat, walk: Walk): Expansion
    decreases Fuel(depth), 3, |lines|
  {
    if lines == [] then Expansion("", walk) else
    var marker := FenceMarker(lines[0]);
    var here := if marker.Some? || fence.Some? then Expansion(lines[0], walk)
                else ExpandLine(ctx, lines[0], true, dir, depth, walk);
    var next := if marker.Some? then NextFence(fence, marker.value) else fence;
    var rest := ExpandLines(ctx, lines[1..], next, dir, depth, here.walk);
    Expansion(here.out + rest.out, rest.walk)
  }

  function ExpandText(ctx: Context, input: string, dir: Path, depth: nat, walk: Walk): Expansion
    decreases Fuel(depth), 4, 0
  {
    ExpandLines(ctx, Lines(input), None, dir, depth, walk)
  }

  /** A top-level file: its own path is visited from the start. */
  function Prepare(ctx: Context, raw: string, file: Path): Expansion {
    ExpandText(ctx, ctx.files.strip(raw), Parent(file), 0, Walk({file}, [], []))
  }

  // ----- the expander's loops

  method ExpandImports(ctx: Context, input: string, dir: Path, depth: nat, walk: Walk) returns (out: string, after: Walk)
    ensures Expansion(out, after) == ExpandText(ctx, input, dir, depth, walk)
    decreases Fuel(depth), 4, 0
  {
    out, after := "", walk;
    var fence: Fence := None;
    var lines := Lines(input);
    for i := 0 to |lines|
      invariant ExpandText(ctx, input, dir, depth, walk) == Prefixed(out, ExpandLines(ctx, lines[i..], fence, dir, depth, after))
    {
      assert lines[i..][0] == lines[i] && lines[i..][1..] == lines[i + 1..];
      var marker := FenceMarker(lines[i]);
      var piece := lines[i];
      if marker.Some? {
        fence := NextFence(fence, marker.value);
      } else if fence.None? {
        piece, after := ExpandLineImports(ctx, lines[i], dir, depth, after);
      }
      PrefixedTwice(out, piece, ExpandLines(ctx, lines[i + 1..], fence, dir, depth, after));
      out := out + piece;
    }
  }

  function Prefixed(s: string, e: Expansion): Expansion {
    Expansion(s + e.out, e.walk)
  }

  lemma PrefixedTwice(a: string, b: string, e: Expansion)
    ensures Prefixed(a, Prefixed(b, e)) == Prefixed(a + b, e)
  {
    assert a + (b + e.out) == (a + b) + e.out;
  }

  method ExpandLineImports(ctx: Context, line: string, dir: Path, depth: nat, walk: Walk) returns (out: string, after: Walk)
    ensures Expansion(out, after) == ExpandLine(ctx, line, true, dir, depth, walk)
    decreases Fuel(depth), 3, 0
  {
    out, after := "", walk;
    var i, prevWs := 0, true;
    while i < |line|
      invariant i <= |line|
      invariant ExpandLine(ctx, line, true, dir, depth, walk) == Prefixed(out, ExpandLine(ctx, line[i..], prevWs, dir, depth, after))
      decreases |line| - i
    {
      var piece, next;
      piece, next, prevWs, after := AdvanceAt(ctx, line, i, prevWs, dir, depth, after);
      PrefixedTwice(out, piece, ExpandLine(ctx, line[next..], prevWs, dir, depth, after));
      out, i := out + piece, next;
    }
  }

  /** The loop body: the text to push and the index to go on at. */
  method AdvanceAt(ctx: Context, line: string, i: nat, prevWs: bool, dir: Path, depth: nat, walk: Walk)
    returns (piece: string, next: nat, ws: bool, after: Walk)
    requires i < |line|
    ensures i < next <= |line|
    ensures LineStep(piece, line[next..], ws, after) == Advance(ctx, line[i..], prevWs, dir, depth, walk)
    decreases Fuel(depth), 2, 0
  {
    after, ws := walk, false;
    var b := line[i];
    if b == '`' {
      piece, next := SpanAt(line, i);
    } else if b == '@' && prevWs {
      piece, next, after := TokenAt(ctx, line, i, dir, depth, after);
      Slices(line, i, next - i);
    } else {
      next := i + 1;
      Slices(line, i, 1);
      piece := line[i..next];
      ws := IsAsciiWhitespace(b);
    }
  }

  /** The text to push for the token at `i`: its expansion, or the token itself. */
  method TokenAt(ctx: Context, line: string, i: nat, dir: Path, depth: nat, walk: Walk)
    returns (piece: string, next: nat, after: Walk)
    requires i < |line|
    ensures i < next <= |line| && next == i + 1 + TokenLength(line[i..][1..])
    ensures var r := ResolveAndExpand(ctx, line[i..][1..next - i], dir, depth, walk);
            after == r.walk && piece == if r.content.Some? then r.content.value else line[i..][..next - i]
    decreases Fuel(depth), 1, 0
  {
    next := i + 1 + TokenLength(line[i..][1..]);
    var content;
    content, after := ResolveImport(ctx, line[i..][1..next - i], dir, depth, walk);
    piece := if content.Some? then content.value else line[i..next];
  }

  lemma Slices(line: string, i: nat, k: nat)
    requires i + k <= |line|
    ensures line[i..][..k] == line[i..i + k] && line[i..][k..] == line[i + k..]
  {
  }

  method SpanAt(line: string, i: nat) returns (piece: string, next: nat)
    requires i < |line| && line[i] == '`'
    ensures next == i + SpanLength(line[i..]) && i < next <= |line|
    ensures piece == line[i..][..next - i] && line[next..] == line[i..][next - i..]
  {
    var run := RunLength(line[i..], '`');
    var close := FindBacktickRunAt(line[i..][run..], run);
    next := if close.None? then |line| else i + run + close.value + run;
    Slices(line, i, next - i);
    piece := line[i..next];
  }

  method ResolveImport(ctx: Context, token: string, dir: Path, depth: nat, walk: Walk) returns (content: Option<string>, after: Walk)
    ensures Resolution(content, after) == ResolveAndExpand(ctx, token, dir, depth, walk)
    decreases Fuel(depth), 0, 0
  {
    content, after := None, walk;
    if depth >= MAX_IMPORT_DEPTH { return; }
    var target := Target(ctx, token, dir);
    if target.None? || target.value in after.visited { return; }
    after := after.(visited := after.visited + {target.value});
    if !Internal(ctx, target.value) {
      after := after.(externals := after.externals + [target.value]);
      if !ctx.allowExternal { return; }
    }
    var raw := ctx.files.read(target.value);
    if raw.None? { return; }
    after := after.(hops := after.hops + [Hop(target.value, depth + 1)]);
    var text;
    text, after := ExpandImports(ctx, ctx.files.strip(raw.value), Parent(target.value), depth + 1, after);
    content := Some(text);
  }
}
