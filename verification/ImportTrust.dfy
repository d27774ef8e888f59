/** The trust boundary of imports: what lies under the working directory or under `.claude` in the home
    directory is expanded, everything else is reported, and withheld unless external imports are on. */
module ImportTrust {
  import opened Wrappers
  import opened ImportExpansion
  import opened ImportProperties

  predicate UnderCwd(ctx: Context, p: Path) {
    |ctx.cwd| <= |p| && forall i :: 0 <= i < |ctx.cwd| ==> p[i] == ctx.cwd[i]
  }

  /** Below the home directory and there below `.claude`; the rest of the home is not trusted. */
  predicate UnderClaudeHome(ctx: Context, p: Path) {
    && ctx.home.Some? && |ctx.home.value| < |p|
    && (forall i :: 0 <= i < |ctx.home.value| ==> p[i] == ctx.home.value[i])
    && p[|ctx.home.value|] == ".claude"
  }

  predicate Outside(ctx: Context, p: Path) {
    !UnderCwd(ctx, p) && !UnderClaudeHome(ctx, p)
  }

  predicate Distinct(paths: seq<Path>) {
    forall i, j :: 0 <= i < j < |paths| ==> paths[i] != paths[j]
  }

  lemma InternalMeans(ctx: Context, p: Path)
    ensures Internal(ctx, p) <==> !Outside(ctx, p)
  {
    if ctx.home.Some? {
      var root := ctx.home.value + [".claude"];
      assert root[|root| - 1] == ".claude";
      if UnderClaudeHome(ctx, p) { assert forall i :: 0 <= i < |root| ==> p[i] == root[i]; }
    }
  }

  /** A file outside that resolves for the first time is recorded, and with external imports off neither read
      nor expanded: its token stays as it is. */
  lemma OutsideIsReported(ctx: Context, token: string, dir: Path, depth: nat, walk: Walk)
    requires depth < 4 && Target(ctx, token, dir).Some?
    requires var file := Target(ctx, token, dir).value; Outside(ctx, file) && file !in walk.visited
    ensures var r := ResolveAndExpand(ctx, token, dir, depth, walk);
            && walk.externals + [Target(ctx, token, dir).value] <= r.walk.externals
            && (!ctx.allowExternal ==> r.content.None? && r.walk.hops == walk.hops)
  {
    var file := Target(ctx, token, dir).value;
    InternalMeans(ctx, file);
    var raw := ctx.files.read(file);
    if ctx.allowExternal && raw.Some? {
      var seen := walk.(visited := walk.visited + {file}, externals := walk.externals + [file],
                        hops := walk.hops + [Hop(file, depth + 1)]);
      TextExtends(ctx, ctx.files.strip(raw.value), Parent(file), depth + 1, seen);
    }
  }

  // ----- over a whole top-level file

  /** Every visited file but the top-level one is on the external list exactly when it lies outside; the list
      names each once; and with external imports off nothing outside was expanded. */
  predicate Filed(ctx: Context, top: Path, walk: Walk) {
    && top in walk.visited
    && (forall p :: p in walk.visited && p != top && Outside(ctx, p) ==> p in walk.externals)
    && (forall p :: p in walk.externals ==> p in walk.visited && p != top && Outside(ctx, p))
    && Distinct(walk.externals)
    && (!ctx.allowExternal ==> forall i :: 0 <= i < |walk.hops| ==> !Outside(ctx, walk.hops[i].path))
  }

  lemma EnterFiled(ctx: Context, top: Path, walk: Walk, file: Path)
    requires Filed(ctx, top, walk) && file !in walk.visited
    ensures Filed(ctx, top, walk.(visited := walk.visited + {file},
                                  externals := if Internal(ctx, file) then walk.externals else walk.externals + [file]))
  {
    InternalMeans(ctx, file);
  }

  lemma {:induction false} ResolveFiled(ctx: Context, top: Path, token: string, dir: Path, depth: nat, walk: Walk)
    requires Filed(ctx, top, walk)
    ensures Filed(ctx, top, ResolveAndExpand(ctx, token, dir, depth, walk).walk)
    decreases Fuel(depth), 0, 0
  {
    var target := Target(ctx, token, dir);
    if depth < MAX_IMPORT_DEPTH && target.Some? && target.value !in walk.visited {
      var file := target.value;
      EnterFiled(ctx, top, walk, file);
      InternalMeans(ctx, file);
      var seen := walk.(visited := walk.visited + {file},
                        externals := if Internal(ctx, file) then walk.externals else walk.externals + [file]);
      var raw := ctx.files.read(file);
      if (Internal(ctx, file) || ctx.allowExternal) && raw.Some? {
        TextFiled(ctx, top, ctx.files.strip(raw.value), Parent(file), depth + 1, seen.(hops := seen.hops + [Hop(file, depth + 1)]));
      }
    }
  }

  lemma AdvanceFiled(ctx: Context, top: Path, s: string, prevWs: bool, dir: Path, depth: nat, walk: Walk)
    requires Filed(ctx, top, walk) && s != ""
    ensures Filed(ctx, top, Advance(ctx, s, prevWs, dir, depth, walk).walk)
    decreases Fuel(depth), 1, 0
  {
    if s[0] == '@' && prevWs { ResolveFiled(ctx, top, s[1..1 + TokenLength(s[1..])], dir, depth, walk); }
  }

  lemma {:induction false} LineFiled(ctx: Context, top: Path, s: string, prevWs: bool, dir: Path, depth: nat, walk: Walk)
    requires Filed(ctx, top, walk)
    ensures Filed(ctx, top, ExpandLine(ctx, s, prevWs, dir, depth, walk).walk)
    decreases Fuel(depth), 2, |s|
  {
    if s == "" {
    } else {
      AdvanceFiled(ctx, top, s, prevWs, dir, depth, walk);
      var step := Advance(ctx, s, prevWs, dir, depth, walk);
      LineFiled(ctx, top, step.rest, step.prevWs, dir, depth, step.walk);
    }
  }

  lemma {:induction false} LinesFiled(ctx: Context, top: Path, lines: seq<string>, fence: Fence, dir: Path, depth: nat, walk: Walk)
    requires Filed(ctx, top, walk)
    ensures Filed(ctx, top, ExpandLines(ctx, lines, fence, dir, depth, walk).walk)
    decreases Fuel(depth), 3, |lines|
  {
    if lines == [] {
    } else {
      var marker := FenceMarker(lines[0]);
      LineFiled(ctx, top, lines[0], true, dir, depth, walk);
      var here := if marker.Some? || fence.Some? then Expansion(lines[0], walk)
                  else ExpandLine(ctx, lines[0], true, dir, depth, walk);
      LinesFiled(ctx, top, lines[1..], if marker.Some? then NextFence(fence, marker.value) else fence, dir, depth, here.walk);
    }
  }

  lemma {:induction false} TextFiled(ctx: Context, top: Path, input: string, dir: Path, depth: nat, walk: Walk)
    requires Filed(ctx, top, walk)
    ensures Filed(ctx, top, ExpandText(ctx, input, dir, depth, walk).walk)
    decreases Fuel(depth), 4, 0
  {
    LinesFiled(ctx, top, Lines(input), None, dir, depth, walk);
  }

  // ----- the tokens of the top-level text

  /** Every token that names a file has it visited. */
  predicate Visits(ctx: Context, dir: Path, tokens: seq<string>, walk: Walk) {
    forall i :: 0 <= i < |tokens| ==> Target(ctx, tokens[i], dir).None? || Target(ctx, tokens[i], dir).value in walk.visited
  }

  lemma VisitsBoth(ctx: Context, dir: Path, a: seq<string>, b: seq<string>, before: Walk, after: Walk)
    requires Visits(ctx, dir, a, before) && Visits(ctx, dir, b, after) && before.visited <= after.visited
    ensures Visits(ctx, dir, a + b, after)
  {
  }

  lemma ResolveVisits(ctx: Context, token: string, dir: Path, walk: Walk)
    ensures Visits(ctx, dir, [token], ResolveAndExpand(ctx, token, dir, 0, walk).walk)
  {
    var target := Target(ctx, token, dir);
    ResolveExtends(ctx, token, dir, 0, walk);
    if target.Some? && target.value !in walk.visited {
      var file := target.value;
      var seen := walk.(visited := walk.visited + {file},
                        externals := if Internal(ctx, file) then walk.externals else walk.externals + [file]);
      var raw := ctx.files.read(file);
      if (Internal(ctx, file) || ctx.allowExternal) && raw.Some? {
        TextExtends(ctx, ctx.files.strip(raw.value), Parent(file), 1, seen.(hops := seen.hops + [Hop(file, 1)]));
      }
    }
  }

  lemma {:induction false} LineVisits(ctx: Context, s: string, prevWs: bool, dir: Path, walk: Walk)
    ensures Visits(ctx, dir, LineTokens(s, prevWs), ExpandLine(ctx, s, prevWs, dir, 0, walk).walk)
    decreases |s|
  {
    if s == "" {
    } else {
      var step := Advance(ctx, s, prevWs, dir, 0, walk);
      LineVisits(ctx, step.rest, step.prevWs, dir, step.walk);
      if s[0] == '@' && prevWs {
        var end := 1 + TokenLength(s[1..]);
        ResolveVisits(ctx, s[1..end], dir, walk);
        LineExtends(ctx, step.rest, step.prevWs, dir, 0, step.walk);
        VisitsBoth(ctx, dir, [s[1..end]], LineTokens(s[end..], false), step.walk, ExpandLine(ctx, s, prevWs, dir, 0, walk).walk);
      }
    }
  }

  lemma {:induction false} LinesVisit(ctx: Context, lines: seq<string>, fence: Fence, dir: Path, walk: Walk)
    ensures Visits(ctx, dir, Tokens(lines, fence), ExpandLines(ctx, lines, fence, dir, 0, walk).walk)
    decreases |lines|
  {
    if lines == [] {
    } else {
      var marker := FenceMarker(lines[0]);
      var next := if marker.Some? then NextFence(fence, marker.value) else fence;
      var here := if marker.Some? || fence.Some? then Expansion(lines[0], walk)
                  else ExpandLine(ctx, lines[0], true, dir, 0, walk);
      var tokens := if marker.Some? || fence.Some? then [] else LineTokens(lines[0], true);
      LineVisits(ctx, lines[0], true, dir, walk);
      LinesVisit(ctx, lines[1..], next, dir, here.walk);
      LinesExtend(ctx, lines[1..], next, dir, 0, here.walk);
      VisitsBoth(ctx, dir, tokens, Tokens(lines[1..], next), here.walk, ExpandLines(ctx, lines, fence, dir, 0, walk).walk);
      assert Tokens(lines, fence) == tokens + Tokens(lines[1..], next);
    }
  }

  /** The trust boundary over a whole top-level file and every file it pulls in: with external imports off, each
      expanded file lies under the working directory or under `.claude` in the home; nothing that does is
      reported as external; each reported file is reported once; and every token of the top-level text that
      names a file outside has it reported. */
  lemma TrustBoundary(ctx: Context, raw: string, file: Path)
    ensures var walk := Prepare(ctx, raw, file).walk;
            && (!ctx.allowExternal ==>
                  forall i :: 0 <= i < |walk.hops| ==> UnderCwd(ctx, walk.hops[i].path) || UnderClaudeHome(ctx, walk.hops[i].path))
            && (forall p :: p in walk.externals ==> !UnderCwd(ctx, p) && !UnderClaudeHome(ctx, p) && p != file)
            && Distinct(walk.externals)
            && Reports(ctx, file, Tokens(Lines(ctx.files.strip(raw)), None), walk)
  {
    var text, start := ctx.files.strip(raw), Walk({file}, [], []);
    TextFiled(ctx, file, text, Parent(file), 0, start);
    LinesVisit(ctx, Lines(text), None, Parent(file), start);
  }

  /** Every token that names a file outside, other than the top-level one, has it on the external list. */
  predicate Reports(ctx: Context, top: Path, tokens: seq<string>, walk: Walk) {
    forall i :: 0 <= i < |tokens| ==>
      var target := Target(ctx, tokens[i], Parent(top));
      target.Some? && target.value != top && Outside(ctx, target.value) ==> target.value in walk.externals
  }
}
