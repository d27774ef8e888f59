/** What import expansion guarantees on every file graph, cycles included. That it ends is the
    termination of the functions in ImportExpansion themselves. */
module ImportProperties {
  import opened Wrappers
  import opened ImportExpansion

  // ----- each file at most once, at most four hops deep

  /** `b` continues `a`: what was recorded stays, and every further hop expands a file not visited
      before, once, deeper than `depth` and within the limit. */
  predicate Extends(a: Walk, b: Walk, depth: nat) {
    && a.visited <= b.visited && a.externals <= b.externals && a.hops <= b.hops
    && (forall i :: |a.hops| <= i < |b.hops| ==>
          && b.hops[i].path in b.visited && b.hops[i].path !in a.visited
          && depth < b.hops[i].depth <= MAX_IMPORT_DEPTH)
    && (forall i, j :: |a.hops| <= i < j < |b.hops| ==> b.hops[i].path != b.hops[j].path)
  }

  lemma {:induction false} ResolveExtends(ctx: Context, token: string, dir: Path, depth: nat, walk: Walk)
    ensures var r := ResolveAndExpand(ctx, token, dir, depth, walk);
            Extends(walk, r.walk, depth) && (r.content.Some? ==> |walk.hops| < |r.walk.hops|)
    decreases Fuel(depth), 0, 0
  {
    var target := Target(ctx, token, dir);
    if depth < MAX_IMPORT_DEPTH && target.Some? && target.value !in walk.visited {
      var file := target.value;
      var seen := walk.(visited := walk.visited + {file},
                        externals := if Internal(ctx, file) then walk.externals else walk.externals + [file]);
      var raw := ctx.files.read(file);
      if (Internal(ctx, file) || ctx.allowExternal) && raw.Some? {
        var entered := seen.(hops := seen.hops + [Hop(file, depth + 1)]);
        var text := ctx.files.strip(raw.value);
        TextExtends(ctx, text, Parent(file), depth + 1, entered);
      }
    }
  }

  lemma AdvanceExtends(ctx: Context, s: string, prevWs: bool, dir: Path, depth: nat, walk: Walk)
    requires s != ""
    ensures var step := Advance(ctx, s, prevWs, dir, depth, walk);
            Extends(walk, step.walk, depth) && (|step.walk.hops| == |walk.hops| ==> step.piece + step.rest == s)
    decreases Fuel(depth), 1, 0
  {
    if s[0] == '@' && prevWs {
      ResolveExtends(ctx, s[1..1 + TokenLength(s[1..])], dir, depth, walk);
    }
  }

  lemma {:induction false} LineExtends(ctx: Context, s: string, prevWs: bool, dir: Path, depth: nat, walk: Walk)
    ensures var e := ExpandLine(ctx, s, prevWs, dir, depth, walk);
            Extends(walk, e.walk, depth) && (|e.walk.hops| == |walk.hops| ==> e.out == s)
    decreases Fuel(depth), 2, |s|
  {
    if s == "" {
    } else {
      AdvanceExtends(ctx, s, prevWs, dir, depth, walk);
      var step := Advance(ctx, s, prevWs, dir, depth, walk);
      LineExtends(ctx, step.rest, step.prevWs, dir, depth, step.walk);
    }
  }

  lemma {:induction false} LinesExtend(ctx: Context, lines: seq<string>, fence: Fence, dir: Path, depth: nat, walk: Walk)
    ensures var e := ExpandLines(ctx, lines, fence, dir, depth, walk);
            Extends(walk, e.walk, depth) && (|e.walk.hops| == |walk.hops| ==> e.out == Joined(lines))
    decreases Fuel(depth), 3, |lines|
  {
    if lines == [] {
    } else {
      var marker := FenceMarker(lines[0]);
      var here := if marker.Some? || fence.Some? then Expansion(lines[0], walk)
                  else ExpandLine(ctx, lines[0], true, dir, depth, walk);
      var next := if marker.Some? then NextFence(fence, marker.value) else fence;
      LineExtends(ctx, lines[0], true, dir, depth, walk);
      LinesExtend(ctx, lines[1..], next, dir, depth, here.walk);
    }
  }

  lemma {:induction false} TextExtends(ctx: Context, input: string, dir: Path, depth: nat, walk: Walk)
    ensures var e := ExpandText(ctx, input, dir, depth, walk);
            Extends(walk, e.walk, depth) && (|e.walk.hops| == |walk.hops| ==> e.out == input)
    decreases Fuel(depth), 4, 0
  {
    LinesExtend(ctx, Lines(input), None, dir, depth, walk);
    LinesJoin(input);
  }

  /** On every file graph, one top-level file expands each canonical file at most once, never itself,
      and at most four hops deep. */
  lemma ExpandsEachFileOnce(ctx: Context, raw: string, file: Path)
    ensures var hops := Prepare(ctx, raw, file).walk.hops;
            && (forall i :: 0 <= i < |hops| ==> hops[i].path != file && 1 <= hops[i].depth <= 4)
            && (forall i, j :: 0 <= i < j < |hops| ==> hops[i].path != hops[j].path)
  {
    TextExtends(ctx, ctx.files.strip(raw), Parent(file), 0, Walk({file}, [], []));
  }

  /** Whenever no import was expanded, whether none was there, none resolved, or all were withheld or
      cut off, the text comes back character for character. */
  lemma UnexpandedIsIdentity(ctx: Context, raw: string, file: Path)
    requires Prepare(ctx, raw, file).walk.hops == []
    ensures Prepare(ctx, raw, file).out == ctx.files.strip(raw)
  {
    TextExtends(ctx, ctx.files.strip(raw), Parent(file), 0, Walk({file}, [], []));
  }

  // ----- when nothing is expanded

  /** The tokens of a line outside its code spans: what follows an `@` at the line's start or after
      whitespace. */
  function LineTokens(s: string, prevWs: bool): seq<string>
    decreases |s|
  {
    if s == "" then []
    else if s[0] == '`' then
      LineTokens(s[SpanLength(s)..], false)
    else if s[0] == '@' && prevWs then
      var end := 1 + TokenLength(s[1..]);
      [s[1..end]] + LineTokens(s[end..], false)
    else LineTokens(s[1..], IsAsciiWhitespace(s[0]))
  }

  /** The tokens of a text outside its fences. */
  function Tokens(lines: seq<string>, fence: Fence): seq<string> {
    if lines == [] then [] else
    var marker := FenceMarker(lines[0]);
    if marker.Some? then Tokens(lines[1..], NextFence(fence, marker.value))
    else (if fence.Some? then [] else LineTokens(lines[0], true)) + Tokens(lines[1..], fence)
  }

  /** A file the expander would put in: not the top-level file itself, trusted or allowed, and readable. */
  predicate Expandable(ctx: Context, top: Path, file: Path) {
    file != top && (Internal(ctx, file) || ctx.allowExternal) && ctx.files.read(file).Some?
  }

  predicate Expands(ctx: Context, top: Path, token: string) {
    var target := Target(ctx, token, Parent(top));
    target.Some? && Expandable(ctx, top, target.value)
  }

  predicate NoneExpands(ctx: Context, top: Path, tokens: seq<string>) {
    forall i :: 0 <= i < |tokens| ==> !Expands(ctx, top, tokens[i])
  }

  /** Nothing expanded yet, and nothing expandable passed over. */
  predicate Untouched(ctx: Context, top: Path, walk: Walk) {
    top in walk.visited && walk.hops == [] && forall f :: f in walk.visited ==> !Expandable(ctx, top, f)
  }

  lemma ResolveUntouched(ctx: Context, top: Path, token: string, walk: Walk)
    requires Untouched(ctx, top, walk)
    ensures var r := ResolveAndExpand(ctx, token, Parent(top), 0, walk);
            if Expands(ctx, top, token) then r.walk.hops != [] else Untouched(ctx, top, r.walk)
  {
    var target := Target(ctx, token, Parent(top));
    if Expands(ctx, top, token) {
      var file := target.value;
      var seen := walk.(visited := walk.visited + {file},
                        externals := if Internal(ctx, file) then walk.externals else walk.externals + [file],
                        hops := walk.hops + [Hop(file, 1)]);
      TextExtends(ctx, ctx.files.strip(ctx.files.read(file).value), Parent(file), 1, seen);
    }
  }

  lemma NoneExpandsConcat(ctx: Context, top: Path, a: seq<string>, b: seq<string>)
    ensures NoneExpands(ctx, top, a + b) <==> NoneExpands(ctx, top, a) && NoneExpands(ctx, top, b)
  {
    var all := a + b;
    assert forall i :: 0 <= i < |a| ==> all[i] == a[i];
    assert forall i :: 0 <= i < |b| ==> all[|a| + i] == b[i];
  }

  /** Once a file is expanded it stays on record. */
  lemma {:induction false} LineUntouched(ctx: Context, top: Path, s: string, prevWs: bool, walk: Walk)
    requires Untouched(ctx, top, walk)
    ensures var e := ExpandLine(ctx, s, prevWs, Parent(top), 0, walk);
            if NoneExpands(ctx, top, LineTokens(s, prevWs)) then Untouched(ctx, top, e.walk) else e.walk.hops != []
    decreases |s|
  {
    if s == "" {
    } else {
      var step := Advance(ctx, s, prevWs, Parent(top), 0, walk);
      if s[0] == '@' && prevWs {
        var end := 1 + TokenLength(s[1..]);
        var token := s[1..end];
        ResolveUntouched(ctx, top, token, walk);
        NoneExpandsConcat(ctx, top, [token], LineTokens(s[end..], false));
        assert NoneExpands(ctx, top, [token]) <==> !Expands(ctx, top, token) by { assert [token][0] == token; }
        if Expands(ctx, top, token) {
          LineExtends(ctx, step.rest, step.prevWs, Parent(top), 0, step.walk);
        } else {
          LineUntouched(ctx, top, step.rest, step.prevWs, step.walk);
        }
      } else {
        LineUntouched(ctx, top, step.rest, step.prevWs, step.walk);
      }
    }
  }

  lemma {:induction false} LinesUntouched(ctx: Context, top: Path, lines: seq<string>, fence: Fence, walk: Walk)
    requires Untouched(ctx, top, walk)
    ensures var e := ExpandLines(ctx, lines, fence, Parent(top), 0, walk);
            if NoneExpands(ctx, top, Tokens(lines, fence)) then Untouched(ctx, top, e.walk) else e.walk.hops != []
    decreases |lines|
  {
    if lines == [] {
    } else {
      var marker := FenceMarker(lines[0]);
      var next := if marker.Some? then NextFence(fence, marker.value) else fence;
      if marker.Some? || fence.Some? {
        LinesUntouched(ctx, top, lines[1..], next, walk);
        assert fence.Some? && marker.None? ==> Tokens(lines, fence) == Tokens(lines[1..], fence);
      } else {
        LineUntouched(ctx, top, lines[0], true, walk);
        var here := ExpandLine(ctx, lines[0], true, Parent(top), 0, walk);
        NoneExpandsConcat(ctx, top, LineTokens(lines[0], true), Tokens(lines[1..], fence));
        if here.walk.hops == [] {
          LinesUntouched(ctx, top, lines[1..], fence, here.walk);
        } else {
          LinesExtend(ctx, lines[1..], fence, Parent(top), 0, here.walk);
        }
      }
    }
  }

  /** A top-level file expands nothing exactly when no token of its text, outside fences and code spans,
      names a readable, trusted or allowed file other than itself; its text then comes back character for
      character. */
  lemma ExpandsNothingExactlyWhen(ctx: Context, raw: string, file: Path)
    ensures Prepare(ctx, raw, file).walk.hops == [] <==> NoneExpands(ctx, file, Tokens(Lines(ctx.files.strip(raw)), None))
    ensures NoneExpands(ctx, file, Tokens(Lines(ctx.files.strip(raw)), None)) ==> Prepare(ctx, raw, file).out == ctx.files.strip(raw)
  {
    var text := ctx.files.strip(raw);
    LinesUntouched(ctx, file, Lines(text), None, Walk({file}, [], []));
    TextExtends(ctx, text, Parent(file), 0, Walk({file}, [], []));
  }

  /** No token of the list names a file from this directory. */
  predicate NoneResolves(ctx: Context, dir: Path, tokens: seq<string>) {
    forall i :: 0 <= i < |tokens| ==> Target(ctx, tokens[i], dir).None?
  }

  lemma NoneResolvesConcat(ctx: Context, dir: Path, a: seq<string>, b: seq<string>)
    ensures NoneResolves(ctx, dir, a + b) <==> NoneResolves(ctx, dir, a) && NoneResolves(ctx, dir, b)
  {
    var all := a + b;
    assert forall i :: 0 <= i < |a| ==> all[i] == a[i];
    assert forall i :: 0 <= i < |b| ==> all[|a| + i] == b[i];
  }

  lemma {:induction false} LineStays(ctx: Context, s: string, prevWs: bool, dir: Path, depth: nat, walk: Walk)
    requires NoneResolves(ctx, dir, LineTokens(s, prevWs))
    ensures ExpandLine(ctx, s, prevWs, dir, depth, walk).walk == walk
    decreases |s|
  {
    if s == "" {
    } else {
      var step := Advance(ctx, s, prevWs, dir, depth, walk);
      if s[0] == '@' && prevWs {
        var end := 1 + TokenLength(s[1..]);
        NoneResolvesConcat(ctx, dir, [s[1..end]], LineTokens(s[end..], false));
        assert [s[1..end]][0] == s[1..end];
        assert ResolveAndExpand(ctx, s[1..end], dir, depth, walk).walk == walk;
      }
      LineStays(ctx, step.rest, step.prevWs, dir, depth, step.walk);
    }
  }

  lemma {:induction false} LinesStay(ctx: Context, lines: seq<string>, fence: Fence, dir: Path, depth: nat, walk: Walk)
    requires NoneResolves(ctx, dir, Tokens(lines, fence))
    ensures ExpandLines(ctx, lines, fence, dir, depth, walk).walk == walk
    decreases |lines|
  {
    if lines == [] {
    } else {
      var marker := FenceMarker(lines[0]);
      var next := if marker.Some? then NextFence(fence, marker.value) else fence;
      var here := if marker.Some? || fence.Some? then [] else LineTokens(lines[0], true);
      var rest := Tokens(lines[1..], next);
      assert Tokens(lines, fence) == here + rest;
      NoneResolvesConcat(ctx, dir, here, rest);
      if marker.None? && fence.None? { LineStays(ctx, lines[0], true, dir, depth, walk); }
      LinesStay(ctx, lines[1..], next, dir, depth, walk);
    }
  }

  /** When no token of the text names a file, the text comes back unchanged and nothing is recorded. */
  lemma UnresolvedIsIdentity(ctx: Context, raw: string, file: Path)
    requires NoneResolves(ctx, Parent(file), Tokens(Lines(ctx.files.strip(raw)), None))
    ensures Prepare(ctx, raw, file) == Expansion(ctx.files.strip(raw), Walk({file}, [], []))
  {
    LinesStay(ctx, Lines(ctx.files.strip(raw)), None, Parent(file), 0, Walk({file}, [], []));
    UnexpandedIsIdentity(ctx, raw, file);
  }

  // ----- fenced text

  /** The line does not close the fence. */
  predicate StaysFenced(fence: (char, nat), line: string) {
    var marker := FenceMarker(line);
    marker.Some? ==> marker.value.0 != fence.0 || marker.value.1 < fence.1
  }

  /** Inside a fence everything is copied and nothing resolved, up to the first line that closes it, that
      line included; expansion goes on behind it with the files visited before. */
  lemma {:induction false} FencedTextIsVerbatim(ctx: Context, body: seq<string>, rest: seq<string>, fence: (char, nat),
                                                dir: Path, depth: nat, walk: Walk)
    requires forall i :: 0 <= i < |body| ==> StaysFenced(fence, body[i])
    requires rest != [] ==> !StaysFenced(fence, rest[0])
    ensures ExpandLines(ctx, body + rest, Some(fence), dir, depth, walk) ==
            if rest == [] then Expansion(Joined(body), walk)
            else Prefixed(Joined(body) + rest[0], ExpandLines(ctx, rest[1..], None, dir, depth, walk))
    decreases |body|
  {
    var lines := body + rest;
    if body != [] {
      assert lines[0] == body[0] && lines[1..] == body[1..] + rest;
      FencedTextIsVerbatim(ctx, body[1..], rest, fence, dir, depth, walk);
      if rest != [] {
        assert Joined(body) + rest[0] == body[0] + (Joined(body[1..]) + rest[0]);
        PrefixedTwice(body[0], Joined(body[1..]) + rest[0], ExpandLines(ctx, rest[1..], None, dir, depth, walk));
      }
    } else if rest != [] {
      assert lines == rest;
      assert Joined(body) + rest[0] == rest[0];
    }
  }

  // ----- withheld files do not leak

  /** The two worlds differ at most in the contents of files outside the trusted roots, and external
      imports are off. */
  ghost predicate SameInside(a: Context, b: Context) {
    && a.cwd == b.cwd && a.home == b.home && !a.allowExternal && !b.allowExternal
    && (forall p :: a.files.canonicalize(p) == b.files.canonicalize(p))
    && (forall p :: a.files.isFile(p) == b.files.isFile(p))
    && (forall s :: a.files.strip(s) == b.files.strip(s))
    && (forall p :: a.cwd <= p ==> a.files.read(p) == b.files.read(p))
    && (a.home.Some? ==> forall p :: a.home.value + [".claude"] <= p ==> a.files.read(p) == b.files.read(p))
  }

  lemma {:induction false} ResolveSame(a: Context, b: Context, token: string, dir: Path, depth: nat, walk: Walk)
    requires SameInside(a, b)
    ensures ResolveAndExpand(a, token, dir, depth, walk) == ResolveAndExpand(b, token, dir, depth, walk)
    decreases Fuel(depth), 0, 0
  {
    var target := Target(a, token, dir);
    assert target == Target(b, token, dir);
    if depth < MAX_IMPORT_DEPTH && target.Some? && target.value !in walk.visited && Internal(a, target.value) {
      var file := target.value;
      var raw := a.files.read(file);
      if raw.Some? {
        var entered := walk.(visited := walk.visited + {file}, hops := walk.hops + [Hop(file, depth + 1)]);
        TextSame(a, b, a.files.strip(raw.value), Parent(file), depth + 1, entered);
      }
    }
  }

  lemma AdvanceSame(a: Context, b: Context, s: string, prevWs: bool, dir: Path, depth: nat, walk: Walk)
    requires SameInside(a, b) && s != ""
    ensures Advance(a, s, prevWs, dir, depth, walk) == Advance(b, s, prevWs, dir, depth, walk)
    decreases Fuel(depth), 1, 0
  {
    if s[0] == '@' && prevWs {
      ResolveSame(a, b, s[1..1 + TokenLength(s[1..])], dir, depth, walk);
    }
  }

  lemma {:induction false} LineSame(a: Context, b: Context, s: string, prevWs: bool, dir: Path, depth: nat, walk: Walk)
    requires SameInside(a, b)
    ensures ExpandLine(a, s, prevWs, dir, depth, walk) == ExpandLine(b, s, prevWs, dir, depth, walk)
    decreases Fuel(depth), 2, |s|
  {
    if s == "" {
    } else {
      AdvanceSame(a, b, s, prevWs, dir, depth, walk);
      var step := Advance(a, s, prevWs, dir, depth, walk);
      LineSame(a, b, step.rest, step.prevWs, dir, depth, step.walk);
    }
  }

  lemma {:induction false} LinesSame(a: Context, b: Context, lines: seq<string>, fence: Fence, dir: Path, depth: nat, walk: Walk)
    requires SameInside(a, b)
    ensures ExpandLines(a, lines, fence, dir, depth, walk) == ExpandLines(b, lines, fence, dir, depth, walk)
    decreases Fuel(depth), 3, |lines|
  {
    if lines == [] {
    } else {
      var marker := FenceMarker(lines[0]);
      LineSame(a, b, lines[0], true, dir, depth, walk);
      var here := if marker.Some? || fence.Some? then Expansion(lines[0], walk)
                  else ExpandLine(a, lines[0], true, dir, depth, walk);
      LinesSame(a, b, lines[1..], if marker.Some? then NextFence(fence, marker.value) else fence, dir, depth, here.walk);
    }
  }

  lemma {:induction false} TextSame(a: Context, b: Context, input: string, dir: Path, depth: nat, walk: Walk)
    requires SameInside(a, b)
    ensures ExpandText(a, input, dir, depth, walk) == ExpandText(b, input, dir, depth, walk)
    decreases Fuel(depth), 4, 0
  {
    LinesSame(a, b, Lines(input), None, dir, depth, walk);
  }

  /** With external imports off, neither the expanded text nor the reported external list depends on
      the contents of any file outside the cwd and `~/.claude`, the top-level file's own text aside. */
  lemma OutsideContentsNeverLeak(a: Context, b: Context, raw: string, file: Path)
    requires SameInside(a, b)
    ensures Prepare(a, raw, file) == Prepare(b, raw, file)
  {
    TextSame(a, b, a.files.strip(raw), Parent(file), 0, Walk({file}, [], []));
  }
}
