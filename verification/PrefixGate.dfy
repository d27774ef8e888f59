/** The prefix-cache stability gate: each request payload is compared, part by part, with the previous one
    of the run. The JSON encoder is a parameter that gives every value at least one byte. */
module PrefixGate {
  import opened Wrappers
  import opened Bytes
  import opened Replay
  import Text

  const APPROX_BYTES_PER_TOKEN: nat := 4

  type Encoder = Json -> seq<Byte>

  ghost predicate Encodes(encode: Encoder) {
    forall j :: |encode(j)| >= 1
  }

  datatype Whitelist = Compaction | ModelSwitch | AccessMode | TodayRollover | ToolCatalogVisibility

  datatype Sample = Sample(
    stabilityPct: nat,
    systemChanged: bool,
    toolsChanged: bool,
    diverged: bool,
    attributed: Option<Whitelist>,
    reprocessedTokens: nat)

  datatype PayloadView = PayloadView(model: string, systemRaw: Json, systemText: string, tools: Json, messages: seq<seq<Byte>>)

  // ----- reading a payload

  datatype WireShape = Anthropic | OpenaiResponses | OpenaiCompletions

  function ShapeOf(api: string): WireShape {
    if api == "openai_responses" then OpenaiResponses
    else if api == "openai_completions" then OpenaiCompletions
    else Anthropic
  }

  function OrNull(j: Option<Json>): Json {
    if j.Some? then j.value else Null
  }

  function ItemsOf(j: Option<Json>): seq<Json> {
    if j.Some? && j.value.Arr? then j.value.items else []
  }

  function JoinLines(parts: seq<string>): string {
    if parts == [] then "" else if |parts| == 1 then parts[0] else parts[0] + "\n" + JoinLines(parts[1..])
  }

  function TextOf(item: Json): string {
    StrOrEmpty(Get(item, "text"))
  }

  function BlocksToText(value: Option<Json>): string {
    if value.None? then ""
    else match value.value
      case Str(s) => s
      case Arr(items) => JoinLines(seq(|items|, i requires 0 <= i < |items| => TextOf(items[i])))
      case other => TextOf(other)
  }

  predicate IsSystemMessage(m: Json) {
    var role := StrOrEmpty(Get(m, "role"));
    role == "system" || role == "developer"
  }

  function Select(items: seq<Json>, system: bool): seq<Json> {
    if items == [] then [] else
    if IsSystemMessage(items[0]) == system then [items[0]] + Select(items[1..], system) else Select(items[1..], system)
  }

  function EncodeAll(items: seq<Json>, encode: Encoder): seq<seq<Byte>> {
    seq(|items|, i requires 0 <= i < |items| => encode(items[i]))
  }

  function ViewOf(api: string, payload: Json, encode: Encoder): PayloadView {
    var model, tools := StrOrEmpty(Get(payload, "model")), OrNull(Get(payload, "tools"));
    match ShapeOf(api)
    case Anthropic =>
      var system := OrNull(Get(payload, "system"));
      PayloadView(model, system, BlocksToText(Some(system)), tools, EncodeAll(ItemsOf(Get(payload, "messages")), encode))
    case OpenaiResponses =>
      var system := OrNull(Get(payload, "instructions"));
      PayloadView(model, system, StrOrEmpty(Some(system)), tools, EncodeAll(ItemsOf(Get(payload, "input")), encode))
    case OpenaiCompletions =>
      var items := ItemsOf(Get(payload, "messages"));
      var entries := Select(items, true);
      var texts := seq(|entries|, i requires 0 <= i < |entries| => BlocksToText(Get(entries[i], "content")));
      PayloadView(model, Arr(entries), JoinLines(texts), tools, EncodeAll(Select(items, false), encode))
  }

  /** The history items of a view are encodings, so none is empty. */
  predicate Wellformed(v: PayloadView) {
    forall i :: 0 <= i < |v.messages| ==> v.messages[i] != []
  }

  lemma ViewsAreWellformed(api: string, payload: Json, encode: Encoder)
    requires Encodes(encode)
    ensures Wellformed(ViewOf(api, payload, encode))
  {
  }

  lemma {:induction false} SelectConcat(a: seq<Json>, b: seq<Json>, system: bool)
    ensures Select(a + b, system) == Select(a, system) + Select(b, system)
  {
    if a == [] {
      assert a + b == b;
    } else {
      assert (a + b)[0] == a[0] && (a + b)[1..] == a[1..] + b;
      SelectConcat(a[1..], b, system);
    }
  }

  lemma {:induction false} SelectAll(items: seq<Json>, system: bool)
    requires forall i :: 0 <= i < |items| ==> IsSystemMessage(items[i]) == system
    ensures Select(items, system) == items && Select(items, !system) == []
  {
    if items == [] {
    } else {
      SelectAll(items[1..], system);
    }
  }

  function TextBlock(text: string): Json {
    Obj(map["type" := Str("text"), "text" := Str(text)])
  }

  function ChatMessage(role: string, content: Json): Json {
    Obj(map["role" := Str(role), "content" := content])
  }

  /** The two top-level shapes: model, prompt, tools and history are read from where each shape puts them, the
      prompt's text from its one text block or its string. */
  lemma TopLevelShapesRead(model: string, prompt: string, tools: Json, history: seq<Json>, encode: Encoder)
    ensures var payload := Obj(map["model" := Str(model), "system" := Arr([TextBlock(prompt)]), "tools" := tools, "messages" := Arr(history)]);
            ViewOf("anthropic", payload, encode) == PayloadView(model, Arr([TextBlock(prompt)]), prompt, tools, EncodeAll(history, encode))
    ensures var payload := Obj(map["model" := Str(model), "instructions" := Str(prompt), "tools" := tools, "input" := Arr(history)]);
            ViewOf("openai_responses", payload, encode) == PayloadView(model, Str(prompt), prompt, tools, EncodeAll(history, encode))
  {
    var blocks := [TextBlock(prompt)];
    assert seq(|blocks|, i requires 0 <= i < |blocks| => TextOf(blocks[i])) == [prompt];
  }

  /** The chat shape: messages of the system and developer roles, wherever they stand, make up the prompt, and all
      others, in their order, the history. */
  lemma ChatShapeReads(model: string, a: string, b: string, tools: Json, first: seq<Json>, second: seq<Json>, encode: Encoder)
    requires HistoryOnly(first) && HistoryOnly(second)
    ensures var system, developer := ChatMessage("system", Str(a)), ChatMessage("developer", Str(b));
            var payload := Obj(map["model" := Str(model), "tools" := tools, "messages" := Arr([system] + first + [developer] + second)]);
            ViewOf("openai_completions", payload, encode)
            == PayloadView(model, Arr([system, developer]), a + "\n" + b, tools, EncodeAll(first + second, encode))
  {
    var system, developer := ChatMessage("system", Str(a)), ChatMessage("developer", Str(b));
    SelectAll([system], true);
    SelectAll(first, false);
    SelectAll([developer], true);
    SelectAll(second, false);
    ChatParts([system], first, [developer], second, true);
    ChatParts(first, [system], second, [developer], false);
    assert [system] + [developer] == [system, developer];
    var entries := [system, developer];
    var texts := seq(|entries|, i requires 0 <= i < |entries| => BlocksToText(Get(entries[i], "content")));
    assert texts == [a, b];
    assert JoinLines([a, b]) == a + "\n" + JoinLines([b]) by { assert [a, b][1..] == [b]; }
  }

  /** Of four stretches in a row, those selected whole, the others not at all. */
  lemma ChatParts(a: seq<Json>, b: seq<Json>, c: seq<Json>, d: seq<Json>, system: bool)
    requires Select(a, system) == a && Select(b, system) == [] && Select(c, system) == c && Select(d, system) == []
    ensures Select(a + b + c + d, system) == a + c
    ensures Select(b + a + d + c, system) == a + c
  {
    EmptyAdds(a);
    EmptyAdds(c);
    EmptyAdds(a + c);
    SelectFour(a, b, c, d, system);
    SelectFour(b, a, d, c, system);
  }

  lemma EmptyAdds(a: seq<Json>)
    ensures a + [] == a && [] + a == a
  {
  }

  predicate HistoryOnly(items: seq<Json>) {
    forall i :: 0 <= i < |items| ==> !IsSystemMessage(items[i])
  }

  lemma SelectFour(a: seq<Json>, b: seq<Json>, c: seq<Json>, d: seq<Json>, system: bool)
    ensures Select(a + b + c + d, system) == Select(a, system) + Select(b, system) + Select(c, system) + Select(d, system)
  {
    SelectConcat(a + b + c, d, system);
    SelectConcat(a + b, c, system);
    SelectConcat(a, b, system);
  }

  // ----- the tool catalog

  function ToolName(entry: Json): Option<string> {
    var name := Get(entry, "name");
    if name.Some? && name.value.Str? then Some(name.value.s) else
    var f := Get(entry, "function");
    var inner := if f.Some? then Get(f.value, "name") else None;
    if inner.Some? && inner.value.Str? then Some(inner.value.s) else None
  }

  function Definition(entry: Json): Json {
    if entry.Obj? then Obj(entry.fields - {"cache_control"}) else entry
  }

  function CatalogOf(items: seq<Json>): map<string, Json> {
    if items == [] then map[] else
    var earlier := CatalogOf(items[..|items| - 1]);
    var name := ToolName(items[|items| - 1]);
    if name.Some? then earlier[name.value := Definition(items[|items| - 1])] else earlier
  }

  function CatalogByName(tools: Json): map<string, Json> {
    CatalogOf(ItemsOf(Some(tools)))
  }

  /** Entries only entered or left: the name sets differ and every shared name keeps its definition. */
  predicate VisibilityOnly(prev: map<string, Json>, cur: map<string, Json>) {
    prev.Keys != cur.Keys && forall n :: n in prev && n in cur ==> prev[n] == cur[n]
  }

  /** The program's loop over the previous catalog, in any order, decides exactly that. */
  method VisibilityOnlyChange(prev: map<string, Json>, cur: map<string, Json>) returns (r: bool)
    ensures r <==> VisibilityOnly(prev, cur)
  {
    var namesDiffer := false;
    var todo := prev.Keys;
    while todo != {}
      invariant todo <= prev.Keys
      invariant forall n :: n in prev.Keys - todo && n in cur ==> prev[n] == cur[n]
      invariant namesDiffer <==> exists n :: n in prev.Keys - todo && n !in cur
      decreases todo
    {
      var name :| name in todo;
      if name !in cur {
        namesDiffer := true;
      } else if cur[name] != prev[name] {
        return false;
      }
      todo := todo - {name};
    }
    var entered := exists n :: n in cur.Keys && n !in prev;
    assert prev.Keys - todo == prev.Keys;
    return namesDiffer || entered;
  }

  // ----- the volatile lines

  predicate IsDigit(c: char) { '0' <= c <= '9' }

  predicate DateChar(c: char, k: nat) {
    if k == 4 || k == 7 then c == '-' else IsDigit(c)
  }

  /** A `YYYY-MM-DD` literal at the head. */
  predicate StartsWithDate(s: string) {
    |s| >= 10 && forall k :: 0 <= k < 10 ==> DateChar(s[k], k)
  }

  function Redacted(s: string): string {
    if s == "" then ""
    else if StartsWithDate(s) then "<date>" + Redacted(s[10..])
    else [s[0]] + Redacted(s[1..])
  }

  method RedactDates(line: string) returns (out: string)
    ensures out == Redacted(line)
  {
    out := "";
    var i := 0;
    while i < |line|
      invariant i <= |line|
      invariant out + Redacted(line[i..]) == Redacted(line)
    {
      var rest := line[i..];
      if StartsWithDate(rest) {
        assert rest[10..] == line[i + 10..];
        out := out + "<date>";
        i := i + 10;
      } else {
        assert rest[1..] == line[i + 1..];
        out := out + [line[i]];
        i := i + 1;
      }
    }
  }

  lemma DateLeavesMarker(s: string)
    ensures StartsWithDate(s) ==> Redacted(s) != "" && Redacted(s)[0] == '<'
  {
  }

  /** Redaction copies its input as far as its output shows no marker. */
  lemma {:induction false} CopiedUntilMarker(s: string, m: nat)
    requires m <= |Redacted(s)| && forall k :: 0 <= k < m ==> Redacted(s)[k] != '<'
    ensures m <= |s| && forall k :: 0 <= k < m ==> s[k] == Redacted(s)[k]
    decreases |s|
  {
    if m == 0 {
    } else {
      DateLeavesMarker(s);
      var tail := Redacted(s[1..]);
      assert forall k :: 0 <= k < m - 1 ==> tail[k] == Redacted(s)[k + 1];
      CopiedUntilMarker(s[1..], m - 1);
      forall k | 0 <= k < m ensures s[k] == Redacted(s)[k] {
        if k > 0 { assert s[1..][k - 1] == s[k]; }
      }
    }
  }

  /** No date survives redaction anywhere. */
  lemma {:induction false} RedactedHasNoDate(s: string, i: nat)
    requires i <= |Redacted(s)|
    ensures !StartsWithDate(Redacted(s)[i..])
    decreases |s|
  {
    var r := Redacted(s);
    if StartsWithDate(r[i..]) {
      assert DateChar(r[i..][0], 0) && r[i..][0] == r[i];
      if StartsWithDate(s) {
        assert i >= 6;
        assert r[i..] == Redacted(s[10..])[i - 6..];
        RedactedHasNoDate(s[10..], i - 6);
      } else if i > 0 {
        assert r[i..] == Redacted(s[1..])[i - 1..];
        RedactedHasNoDate(s[1..], i - 1);
      } else {
        assert r[0..] == r;
        assert forall k :: 0 <= k < 10 ==> DateChar(r[k], k);
        CopiedUntilMarker(s, 10);
        assert StartsWithDate(s);
      }
    }
  }

  lemma {:induction false} UndatedIsFixed(s: string)
    requires forall i :: 0 <= i <= |s| ==> !StartsWithDate(s[i..])
    ensures Redacted(s) == s
    decreases |s|
  {
    if s == "" {
    } else {
      assert s[0..] == s;
      forall i | 0 <= i <= |s[1..]| ensures !StartsWithDate(s[1..][i..]) { assert s[1..][i..] == s[i + 1..]; }
      UndatedIsFixed(s[1..]);
    }
  }

  /** Redaction is idempotent. */
  lemma RedactIdempotent(s: string)
    ensures Redacted(Redacted(s)) == Redacted(s)
  {
    forall i | 0 <= i <= |Redacted(s)| ensures !StartsWithDate(Redacted(s)[i..]) { RedactedHasNoDate(s, i); }
    UndatedIsFixed(Redacted(s));
  }

  function LowerAscii(s: string): string {
    seq(|s|, i requires 0 <= i < |s| => if 'A' <= s[i] <= 'Z' then s[i] + 32 as char else s[i])
  }

  predicate Contains(s: string, part: string) {
    part <= s || (s != "" && Contains(s[1..], part))
  }

  function LineLength(s: string): (n: nat)
    ensures n <= |s| && (n < |s| ==> s[n] == '\n')
  {
    if s == "" || s[0] == '\n' then 0 else 1 + LineLength(s[1..])
  }

  /** Lines without their terminators, a carriage return before a newline being part of it. */
  function LinesOf(s: string): seq<string> {
    if s == "" then [] else
    var n := LineLength(s);
    if n == |s| then [s]
    else [if n > 0 && s[n - 1] == '\r' then s[..n - 1] else s[..n]] + LinesOf(s[n + 1..])
  }

  predicate IsVolatile(line: string) {
    var body := Text.TrimStart(line);
    "Date:" <= body || Contains(LowerAscii(body), "permission mode")
  }

  /** What a line leaves in the normal form. */
  function NormalizedLine(line: string): string {
    if IsVolatile(line) then "" else Redacted(line) + "\n"
  }

  /** What the lines leave, each through `f`, one after the other. */
  function Gathered(lines: seq<string>, f: string -> string): string {
    if lines == [] then "" else Gathered(lines[..|lines| - 1], f) + f(lines[|lines| - 1])
  }

  function NormalizedLines(lines: seq<string>): string {
    Gathered(lines, NormalizedLine)
  }

  function NormalizedSystem(system: string): string {
    NormalizedLines(LinesOf(system))
  }

  lemma {:induction false} GatheredConcat(a: seq<string>, b: seq<string>, f: string -> string)
    ensures Gathered(a + b, f) == Gathered(a, f) + Gathered(b, f)
    decreases |b|
  {
    if b == [] {
      assert a + b == a;
    } else {
      var init, last := b[..|b| - 1], b[|b| - 1];
      GatheredConcat(a, init, f);
      assert a + b == (a + init) + [last];
      Associative(Gathered(a, f), Gathered(init, f), f(last));
    }
  }

  lemma Associative(a: string, b: string, c: string)
    ensures (a + b) + c == a + (b + c)
  {
  }

  /** Two lines the runtime may exchange: both volatile, or equal but for their dates. */
  predicate Exchangeable(x: string, y: string) {
    if IsVolatile(x) || IsVolatile(y) then IsVolatile(x) && IsVolatile(y) else Redacted(x) == Redacted(y)
  }

  lemma NormalizedLineExactlyWhen(x: string, y: string)
    ensures NormalizedLine(x) == NormalizedLine(y) <==> Exchangeable(x, y)
  {
    var a, b := Redacted(x), Redacted(y);
    assert (a + "\n")[..|a|] == a && (b + "\n")[..|b|] == b;
  }

  lemma Cancels(front: string, x: string, y: string, back: string)
    ensures (front + x) + back == (front + y) + back <==> x == y
  {
    var a, b := (front + x) + back, (front + y) + back;
    if a == b {
      assert |x| == |y|;
      assert a[|front|..|front| + |x|] == x && b[|front|..|front| + |y|] == y;
    }
  }

  /** Exchanging one line keeps the normal form exactly when the two are both volatile, or neither is and they
      are equal but for their dates. */
  lemma ExchangeKeepsNormalFormExactlyWhen(front: seq<string>, x: string, y: string, back: seq<string>)
    ensures NormalizedLines(front + [x] + back) == NormalizedLines(front + [y] + back) <==> Exchangeable(x, y)
  {
    GatheredConcat(front + [x], back, NormalizedLine);
    GatheredConcat(front + [y], back, NormalizedLine);
    Cancels(NormalizedLines(front), NormalizedLine(x), NormalizedLine(y), NormalizedLines(back));
    NormalizedLineExactlyWhen(x, y);
  }

  method NormalizeSystem(system: string) returns (out: string)
    ensures out == NormalizedSystem(system)
  {
    out := "";
    var lines := LinesOf(system);
    for i := 0 to |lines|
      invariant out == NormalizedLines(lines[..i])
    {
      assert lines[..i + 1][..i] == lines[..i];
      if IsVolatile(lines[i]) { continue; }
      var redacted := RedactDates(lines[i]);
      out := out + (redacted + "\n");
    }
    assert lines[..|lines|] == lines;
  }

  // ----- classification

  function CommonLen(prev: seq<seq<Byte>>, cur: seq<seq<Byte>>): (k: nat)
    ensures k <= |prev| && k <= |cur|
  {
    if prev == [] || cur == [] || prev[0] != cur[0] then 0 else 1 + CommonLen(prev[1..], cur[1..])
  }

  /** The length of the longest common prefix; it is the whole old history exactly when that is a prefix
      of the new one. */
  lemma {:induction false} CommonLenIsLongest(prev: seq<seq<Byte>>, cur: seq<seq<Byte>>)
    ensures var k := CommonLen(prev, cur);
            && prev[..k] == cur[..k]
            && (k < |prev| && k < |cur| ==> prev[k] != cur[k])
            && (k == |prev| <==> prev <= cur)
    decreases |prev|
  {
    if prev != [] && cur != [] && prev[0] == cur[0] {
      CommonLenIsLongest(prev[1..], cur[1..]);
      var k := CommonLen(prev[1..], cur[1..]);
      assert prev[..k + 1] == [prev[0]] + prev[1..][..k] && cur[..k + 1] == [cur[0]] + cur[1..][..k];
      assert prev == [prev[0]] + prev[1..] && cur == [cur[0]] + cur[1..];
      assert prev <= cur <==> prev[1..] <= cur[1..];
    }
  }

  method CommonHistoryLen(prev: seq<seq<Byte>>, cur: seq<seq<Byte>>) returns (k: nat)
    ensures k == CommonLen(prev, cur)
  {
    k := 0;
    while k < |prev| && k < |cur| && prev[k] == cur[k]
      invariant k <= |prev| && k <= |cur| && k + CommonLen(prev[k..], cur[k..]) == CommonLen(prev, cur)
    {
      assert prev[k..][1..] == prev[k + 1..] && cur[k..][1..] == cur[k + 1..];
      k := k + 1;
    }
  }

  function TotalLength(messages: seq<seq<Byte>>): nat {
    if messages == [] then 0 else |messages[0]| + TotalLength(messages[1..])
  }

  function TotalBytes(v: PayloadView, encode: Encoder): nat {
    |encode(v.systemRaw)| + |encode(v.tools)| + TotalLength(v.messages)
  }

  function ReusedBytes(prev: PayloadView, cur: PayloadView, encode: Encoder): nat {
    (if prev.systemRaw != cur.systemRaw then 0 else |encode(prev.systemRaw)|)
    + (if prev.tools != cur.tools then 0 else |encode(prev.tools)|)
    + TotalLength(prev.messages[..CommonLen(prev.messages, cur.messages)])
  }

  predicate Diverged(prev: PayloadView, cur: PayloadView) {
    prev.model != cur.model || prev.systemRaw != cur.systemRaw || prev.tools != cur.tools
    || CommonLen(prev.messages, cur.messages) != |prev.messages|
  }

  function Attribution(prev: PayloadView, cur: PayloadView): Option<Whitelist> {
    if !Diverged(prev, cur) then None
    else if prev.model != cur.model then Some(ModelSwitch)
    else if |cur.messages| < |prev.messages| then Some(Compaction)
    else if prev.systemRaw != cur.systemRaw && NormalizedSystem(prev.systemText) == NormalizedSystem(cur.systemText) then
      Some(if Contains(prev.systemText, "Access mode") || Contains(cur.systemText, "Access mode") then AccessMode else TodayRollover)
    else if prev.tools != cur.tools && prev.systemRaw == cur.systemRaw
            && VisibilityOnly(CatalogByName(prev.tools), CatalogByName(cur.tools)) then
      Some(ToolCatalogVisibility)
    else None
  }

  function Percent(part: nat, whole: nat): nat {
    if whole == 0 then 100 else if part * 100 / whole > 100 then 100 else part * 100 / whole
  }

  function Classify(prev: PayloadView, cur: PayloadView, encode: Encoder): Sample {
    var total, reused := TotalBytes(prev, encode), ReusedBytes(prev, cur, encode);
    var pct := Percent(reused, total);
    var tokens := if Diverged(prev, cur) && Attribution(prev, cur).None? && reused <= total
                  then (total - reused) / APPROX_BYTES_PER_TOKEN else 0;
    Sample(pct, prev.systemRaw != cur.systemRaw, prev.tools != cur.tools, Diverged(prev, cur), Attribution(prev, cur), tokens)
  }

  /** The bytes of the previous payload that this request no longer replays. */
  function LostBytes(prev: PayloadView, cur: PayloadView, encode: Encoder): nat {
    (if prev.systemRaw != cur.systemRaw then |encode(prev.systemRaw)| else 0)
    + (if prev.tools != cur.tools then |encode(prev.tools)| else 0)
    + TotalLength(prev.messages[CommonLen(prev.messages, cur.messages)..])
  }

  lemma {:induction false} LengthSplits(messages: seq<seq<Byte>>, k: nat)
    requires k <= |messages|
    ensures TotalLength(messages[..k]) + TotalLength(messages[k..]) == TotalLength(messages)
  {
    if k > 0 {
      LengthSplits(messages[1..], k - 1);
      assert messages[..k][1..] == messages[1..][..k - 1] && messages[k..] == messages[1..][k - 1..];
    } else {
      assert messages[0..] == messages;
    }
  }

  /** Every byte of the previous payload is either replayed or lost: the subtraction behind the estimate
      never underflows, and the estimate is the floor of a quarter of the lost bytes exactly when the
      divergence is not one the runtime intends. */
  lemma BytesAreConserved(prev: PayloadView, cur: PayloadView, encode: Encoder)
    ensures ReusedBytes(prev, cur, encode) + LostBytes(prev, cur, encode) == TotalBytes(prev, encode)
    ensures var s := Classify(prev, cur, encode);
            s.reprocessedTokens == if s.diverged && s.attributed.None? then LostBytes(prev, cur, encode) / 4 else 0
  {
    LengthSplits(prev.messages, CommonLen(prev.messages, cur.messages));
  }

  /** The two prompts differ in one line, the model is the same and the history no shorter. */
  predicate OneLineChanged(prev: PayloadView, cur: PayloadView, front: seq<string>, x: string, y: string, back: seq<string>) {
    && prev.model == cur.model && prev.systemRaw != cur.systemRaw && |prev.messages| <= |cur.messages|
    && LinesOf(prev.systemText) == front + [x] + back && LinesOf(cur.systemText) == front + [y] + back
  }

  /** A request whose system prompt changed in one line is an intended change, whatever else diverged, exactly
      when the line is volatile before and after or differs only in dates; then nothing is estimated as
      reprocessed, and otherwise every lost byte is. */
  lemma LineChangeIsIntendedExactlyWhen(prev: PayloadView, cur: PayloadView, encode: Encoder,
                                        front: seq<string>, x: string, y: string, back: seq<string>)
    requires OneLineChanged(prev, cur, front, x, y, back)
    ensures var s := Classify(prev, cur, encode);
            && s.diverged
            && (s.attributed.Some? <==> Exchangeable(x, y))
            && s.attributed in {None, Some(AccessMode), Some(TodayRollover)}
            && s.reprocessedTokens == if Exchangeable(x, y) then 0 else LostBytes(prev, cur, encode) / 4
  {
    ExchangeKeepsNormalFormExactlyWhen(front, x, y, back);
    BytesAreConserved(prev, cur, encode);
  }

  predicate Undigited(s: string) {
    forall i :: 0 <= i < |s| ==> !IsDigit(s[i])
  }

  lemma UndigitedIsFixed(s: string)
    requires Undigited(s)
    ensures Redacted(s) == s
  {
    forall i | 0 <= i <= |s| ensures !StartsWithDate(s[i..]) {
      if |s[i..]| >= 10 { assert !DateChar(s[i..][0], 0); }
    }
    UndatedIsFixed(s);
  }

  /** The prompt's line for an access mode; `tail` explains the modes. */
  function ModeLine(mode: string, tail: string): string {
    "- Access mode: " + mode + tail
  }

  lemma ModeLineIsFixed(mode: string, tail: string)
    requires Undigited(mode) && Undigited(tail)
    ensures Redacted(ModeLine(mode, tail)) == ModeLine(mode, tail)
  {
    var lead := ['-', ' ', 'A', 'c', 'c', 'e', 's', 's', ' ', 'm', 'o', 'd', 'e', ':', ' '];
    assert "- Access mode: " == lead && Undigited(lead);
    UndigitedIsFixed(ModeLine(mode, tail));
  }

  /** So a switch between access modes is reported as an invalidation as long as its line, which reads `Access
      mode`, does not mention `permission mode` as well; the prompt's does not, and holds no digit. */
  lemma ModeSwitchIsReported(prev: PayloadView, cur: PayloadView, encode: Encoder,
                             front: seq<string>, a: string, b: string, tail: string, back: seq<string>)
    requires a != b && Undigited(a) && Undigited(b) && Undigited(tail)
    requires !Contains(LowerAscii(ModeLine(a, tail)), "permission mode")
    requires OneLineChanged(prev, cur, front, ModeLine(a, tail), ModeLine(b, tail), back)
    ensures var s := Classify(prev, cur, encode);
            s.diverged && s.attributed.None? && s.reprocessedTokens == LostBytes(prev, cur, encode) / 4
  {
    ModeLineIsFixed(a, tail);
    ModeLineIsFixed(b, tail);
    Cancels("- Access mode: ", a, b, tail);
    LineChangeIsIntendedExactlyWhen(prev, cur, encode, front, ModeLine(a, tail), ModeLine(b, tail), back);
  }

  lemma SignOfFactor(x: int, c: int)
    requires c > 0
    ensures x * c >= c ==> x >= 1
    ensures x * c < c ==> x < 1
  {
  }

  lemma PercentOfPart(part: nat, whole: nat)
    requires 0 < whole && part <= whole
    ensures Percent(part, whole) <= 100 && (Percent(part, whole) == 100 <==> part == whole)
  {
    var q := part * 100 / whole;
    assert q * whole <= part * 100 < (q + 1) * whole;
    assert (q - 99) * whole == q * whole - 99 * whole;
    assert (q + 1) * whole == q * whole + whole;
    SignOfFactor(q - 99, whole);
  }

  /** Stability is 100 exactly when system and tools are unchanged and the old history is a prefix of the
      new one; it never exceeds 100. */
  lemma FullStabilityExactlyWhen(prev: PayloadView, cur: PayloadView, encode: Encoder)
    requires Encodes(encode) && Wellformed(prev)
    ensures Classify(prev, cur, encode).stabilityPct <= 100
    ensures Classify(prev, cur, encode).stabilityPct == 100 <==>
              prev.systemRaw == cur.systemRaw && prev.tools == cur.tools && prev.messages <= cur.messages
  {
    BytesAreConserved(prev, cur, encode);
    var total, reused := TotalBytes(prev, encode), ReusedBytes(prev, cur, encode);
    assert |encode(prev.systemRaw)| >= 1 && |encode(prev.tools)| >= 1;
    PercentOfPart(reused, total);
    CommonLenIsLongest(prev.messages, cur.messages);
    var k := CommonLen(prev.messages, cur.messages);
    if k < |prev.messages| {
    } else {
      assert prev.messages[k..] == [];
    }
  }

  // ----- runs

  datatype Notice = PrefixStability(pct: nat, systemChanged: bool, toolsChanged: bool) | CacheInvalidation(tokens: nat)

  /** A cache invalidation is reported only for a divergence the runtime did not intend. */
  function NoticesFor(s: Sample): seq<Notice> {
    [PrefixStability(s.stabilityPct, s.systemChanged, s.toolsChanged)]
    + if s.diverged && s.attributed.None? then [CacheInvalidation(s.reprocessedTokens)] else []
  }

  class StabilityGate {
    var baseline: Option<PayloadView>
    var notices: seq<Notice>

    constructor ()
      ensures baseline.None? && notices == []
    {
      baseline, notices := None, [];
    }

    /** Compare with the baseline and replace it; the first payload of a run has nothing to compare. */
    method Observe(api: string, payload: Json, encode: Encoder) returns (sample: Option<Sample>)
      modifies this
      ensures baseline == Some(ViewOf(api, payload, encode))
      ensures sample == if old(baseline).None? then None
                        else Some(Classify(old(baseline).value, ViewOf(api, payload, encode), encode))
      ensures notices == old(notices) + if sample.Some? then NoticesFor(sample.value) else []
    {
      var view := ViewOf(api, payload, encode);
      sample := if baseline.Some? then Some(Classify(baseline.value, view, encode)) else None;
      baseline := Some(view);
      if sample.None? { return; }
      var s := sample.value;
      notices := notices + [PrefixStability(s.stabilityPct, s.systemChanged, s.toolsChanged)];
      if s.diverged && s.attributed.None? { notices := notices + [CacheInvalidation(s.reprocessedTokens)]; }
    }

    method Reset()
      modifies this
      ensures baseline.None? && notices == old(notices)
    {
      baseline := None;
    }
  }

  /** A run of samples without divergence keeps model, system and tools and only ever appends: the first
      history is a prefix of the last. */
  lemma {:induction false} UndivergedRunOnlyAppends(views: seq<PayloadView>, encode: Encoder)
    requires views != []
    requires forall i, j :: 0 <= i && j == i + 1 < |views| ==> !Classify(views[i], views[j], encode).diverged
    ensures var first, last := views[0], views[|views| - 1];
            && first.model == last.model && first.systemRaw == last.systemRaw && first.tools == last.tools
            && first.messages <= last.messages
  {
    if |views| > 1 {
      var init := views[..|views| - 1];
      UndivergedRunOnlyAppends(init, encode);
      var a, b := views[|views| - 2], views[|views| - 1];
      assert !Classify(a, b, encode).diverged;
      CommonLenIsLongest(a.messages, b.messages);
    }
  }
}
