/** What the prefix gate reads and reports, told on concrete shapes and by exact conditions: tools and their
    catalog, dates, volatile lines, the split of a prompt into lines, the cause a sample names, its flags and
    notices, and its percentage. */
module PrefixLaws {
  import opened Wrappers
  import opened Bytes
  import opened Replay
  import opened PrefixGate
  import Text

  // ----- tools

  /** A tool's name is inline or, on the chat wire, under `function`; the cache mark is no part of its
      definition and everything else is. */
  lemma ToolReads(name: string, rest: map<string, Json>, mark: Json)
    requires "name" !in rest && "function" !in rest && "cache_control" !in rest
    ensures ToolName(Obj(rest["name" := Str(name)])) == Some(name)
    ensures ToolName(Obj(rest["function" := Obj(rest["name" := Str(name)])])) == Some(name)
    ensures ToolName(Obj(rest)) == None
    ensures Definition(Obj(rest)) == Obj(rest) == Definition(Obj(rest["cache_control" := mark]))
  {
    assert rest - {"cache_control"} == rest;
    assert rest["cache_control" := mark] - {"cache_control"} == rest;
  }

  lemma CatalogGrows(tools: seq<Json>, entry: Json)
    ensures CatalogByName(Arr(tools + [entry])) ==
              if ToolName(entry).Some? then CatalogByName(Arr(tools))[ToolName(entry).value := Definition(entry)]
              else CatalogByName(Arr(tools))
  {
    assert (tools + [entry])[..|tools|] == tools;
  }

  /** A tool that appears or vanishes is a change of visibility; one whose definition changes is not. */
  lemma VisibilityReads(tools: seq<Json>, entry: Json, other: Json)
    requires ToolName(entry).Some? && ToolName(entry) == ToolName(other)
    requires ToolName(entry).value !in CatalogByName(Arr(tools))
    ensures VisibilityOnly(CatalogByName(Arr(tools)), CatalogByName(Arr(tools + [entry])))
    ensures VisibilityOnly(CatalogByName(Arr(tools + [entry])), CatalogByName(Arr(tools)))
    ensures !VisibilityOnly(CatalogByName(Arr(tools)), CatalogByName(Arr(tools)))
    ensures Definition(entry) != Definition(other) ==>
              forall seen :: ToolName(entry).value !in seen ==>
                !VisibilityOnly(CatalogByName(Arr(tools + [entry])) + seen, CatalogByName(Arr(tools + [other])))
  {
    var n := ToolName(entry).value;
    var before, after := CatalogByName(Arr(tools)), CatalogByName(Arr(tools + [entry]));
    CatalogGrows(tools, entry);
    CatalogGrows(tools, other);
    assert n in after.Keys && n !in before.Keys;
    forall seen: map<string, Json> | n !in seen && Definition(entry) != Definition(other)
      ensures !VisibilityOnly(after + seen, CatalogByName(Arr(tools + [other])))
    {
      assert (after + seen)[n] == Definition(entry) && CatalogByName(Arr(tools + [other]))[n] == Definition(other);
    }
  }

  // ----- dates and lines

  /** A date is four digits, two and two, with dashes between. */
  lemma DateReads(s: string)
    ensures StartsWithDate(s) <==>
              && |s| >= 10 && s[4] == '-' && s[7] == '-'
              && '0' <= s[0] <= '9' && '0' <= s[1] <= '9' && '0' <= s[2] <= '9' && '0' <= s[3] <= '9'
              && '0' <= s[5] <= '9' && '0' <= s[6] <= '9' && '0' <= s[8] <= '9' && '0' <= s[9] <= '9'
  {
  }

  /** A date is replaced by the marker and nothing else is: text without digits stays as it is around it. */
  lemma {:induction false} RedactsTheDate(front: string, date: string, back: string)
    requires |date| == 10 && StartsWithDate(date) && Undigited(front)
    ensures Redacted(front + date + back) == front + "<date>" + Redacted(back)
    decreases |front|
  {
    var s := front + date + back;
    if front == "" {
      assert s == date + back && s[10..] == back;
      assert forall k :: 0 <= k < 10 ==> s[k] == date[k];
    } else {
      assert s[0] == front[0] && s[1..] == front[1..] + date + back;
      assert !DateChar(s[0], 0);
      RedactsTheDate(front[1..], date, back);
      assert [front[0]] + front[1..] == front;
    }
  }

  lemma {:induction false} ContainsMeans(s: string, part: string)
    ensures Contains(s, part) <==> exists k :: 0 <= k <= |s| && part <= s[k..]
  {
    assert s[0..] == s;
    if s == "" {
    } else {
      ContainsMeans(s[1..], part);
      if k :| 0 <= k <= |s[1..]| && part <= s[1..][k..] { assert s[1..][k..] == s[k + 1..]; }
      if k :| 1 <= k <= |s| && part <= s[k..] { assert s[1..][k - 1..] == s[k..]; }
    }
  }

  lemma LowerReads(s: string, i: nat)
    requires i < |s|
    ensures |LowerAscii(s)| == |s|
    ensures 'A' <= s[i] <= 'Z' ==> LowerAscii(s)[i] as int == s[i] as int + 32
    ensures !('A' <= s[i] <= 'Z') ==> LowerAscii(s)[i] == s[i]
  {
  }

  /** A line is volatile exactly when, its indentation aside, it starts with `Date:` or mentions the permission
      mode in any case. */
  lemma VolatileReads(line: string) returns (i: nat)
    ensures i <= |line| && Text.AllWhitespace(line[..i]) && (i < |line| ==> !Text.IsWhitespace(line[i]))
    ensures IsVolatile(line) <==>
              || (i + 5 <= |line| && line[i..i + 5] == ['D', 'a', 't', 'e', ':'])
              || (exists k :: 0 <= k <= |line[i..]| && "permission mode" <= LowerAscii(line[i..])[k..])
  {
    i := Text.TrimStartAt(line);
    var body := line[i..];
    ContainsMeans(LowerAscii(body), "permission mode");
    assert "Date:" == ['D', 'a', 't', 'e', ':'];
    assert i + 5 <= |line| ==> line[i..i + 5] == body[..5];
  }

  /** A prompt splits at its newlines, a carriage return before one going with it. */
  lemma LinesSplit(line: string, rest: string)
    requires forall k :: 0 <= k < |line| ==> line[k] != '\n'
    ensures LinesOf("") == [] && (line != "" ==> LinesOf(line) == [line])
    ensures LinesOf(line + "\n" + rest)
            == [if line != "" && line[|line| - 1] == '\r' then line[..|line| - 1] else line] + LinesOf(rest)
  {
    var s := line + "\n" + rest;
    LineLengthIs(line, "");
    assert line + "" == line;
    LineLengthIs(line, "\n" + rest);
    assert line + ("\n" + rest) == s;
    assert s[..|line|] == line && s[|line| + 1..] == rest;
    if line != "" { assert s[|line| - 1] == line[|line| - 1] && s[..|line| - 1] == line[..|line| - 1]; }
  }

  lemma {:induction false} LineLengthIs(line: string, rest: string)
    requires forall k :: 0 <= k < |line| ==> line[k] != '\n'
    requires rest != "" ==> rest[0] == '\n'
    ensures LineLength(line + rest) == |line|
  {
    if line == "" {
      assert line + rest == rest;
    } else {
      assert (line + rest)[1..] == line[1..] + rest && (line + rest)[0] == line[0];
      LineLengthIs(line[1..], rest);
    }
  }

  // ----- what a sample says

  /** Each cause is named exactly when it applies and none ranked before it does: a model switch, a shorter
      history, a prompt equal but for its volatile parts, a catalog that differs only in visibility. */
  lemma EachCauseExactlyWhen(prev: PayloadView, cur: PayloadView, encode: Encoder)
    ensures var cause := Classify(prev, cur, encode).attributed;
            var mode := Contains(prev.systemText, "Access mode") || Contains(cur.systemText, "Access mode");
            var kept := prev.model == cur.model && |prev.messages| <= |cur.messages|;
            var prompt := kept && prev.systemRaw != cur.systemRaw && NormalizedSystem(prev.systemText) == NormalizedSystem(cur.systemText);
            && (cause == Some(ModelSwitch) <==> prev.model != cur.model)
            && (cause == Some(Compaction) <==> prev.model == cur.model && |cur.messages| < |prev.messages|)
            && (cause == Some(AccessMode) <==> prompt && mode)
            && (cause == Some(TodayRollover) <==> prompt && !mode)
            && (cause == Some(ToolCatalogVisibility) <==>
                  kept && prev.systemRaw == cur.systemRaw && prev.tools != cur.tools
                  && VisibilityOnly(CatalogByName(prev.tools), CatalogByName(cur.tools)))
  {
    CommonLenIsLongest(prev.messages, cur.messages);
  }

  /** A sample's flags, and the notices it raises: always its stability, and an invalidation exactly for a
      divergence without a cause. */
  lemma SampleReads(prev: PayloadView, cur: PayloadView, encode: Encoder)
    ensures var s := Classify(prev, cur, encode);
            && (s.systemChanged <==> prev.systemRaw != cur.systemRaw)
            && (s.toolsChanged <==> prev.tools != cur.tools)
            && (s.diverged <==> prev.model != cur.model || s.systemChanged || s.toolsChanged || !(prev.messages <= cur.messages))
            && (forall n :: CacheInvalidation(n) in NoticesFor(s) <==> s.diverged && s.attributed.None? && n == s.reprocessedTokens)
            && (forall p, a, b :: PrefixStability(p, a, b) in NoticesFor(s) <==>
                  p == s.stabilityPct && (a <==> s.systemChanged) && (b <==> s.toolsChanged))
  {
    CommonLenIsLongest(prev.messages, cur.messages);
  }

  /** The percentage is that of the bytes still replayed among all of the old payload, rounded down; of no bytes
      it is all. */
  lemma StabilityIsTheShare(prev: PayloadView, cur: PayloadView, encode: Encoder)
    ensures var pct, reused, total := Classify(prev, cur, encode).stabilityPct, ReusedBytes(prev, cur, encode), TotalBytes(prev, encode);
            if total == 0 then pct == 100 else pct * total <= reused * 100 < (pct + 1) * total
  {
    BytesAreConserved(prev, cur, encode);
    if TotalBytes(prev, encode) > 0 { PercentIsFloor(ReusedBytes(prev, cur, encode), TotalBytes(prev, encode)); }
  }

  lemma PercentIsFloor(part: nat, whole: nat)
    requires 0 < whole && part <= whole
    ensures Percent(part, whole) * whole <= part * 100 < (Percent(part, whole) + 1) * whole
  {
    var q := part * 100 / whole;
    assert q * whole <= part * 100 < (q + 1) * whole;
    assert (q - 100) * whole == q * whole - 100 * whole;
    SignOfFactor(q - 100, whole);
  }
}
