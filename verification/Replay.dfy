/** Journal replay: the deterministic fold from a session's entry chain to the thread's observable state,
    and the pairing of interaction requests with their decisions. */
module Replay {
  import opened Wrappers

  datatype Json = Null | Bool(b: bool) | Num(n: int) | Str(s: string) | Arr(items: seq<Json>) | Obj(fields: map<string, Json>)

  function Get(j: Json, key: string): Option<Json> {
    if j.Obj? && key in j.fields then Some(j.fields[key]) else None
  }

  function StrOrEmpty(j: Option<Json>): string {
    if j.Some? && j.value.Str? then j.value.s else ""
  }

  /** The journal entries the two folds read; every other kind is `Unread`. */
  datatype Entry =
    | Title(title: string)
    | PinnedArchived(pinned: bool, archived: bool)
    | AnnotationSet(annotation: Json)
    | AnnotationRemoved(annotationId: string)
    | ProjectChange(path: Option<string>)
    | PlanUpdate(snapshot: Json)
    | GoalEntry(goal: Option<Json>)
    | CwdChange(cwd: string)
    | AccessModeChange(mode: string)
    | ThinkingLevelChange(level: string)
    | Approval(row: Row)
    | Question(row: Row)
    | Unread

  /** One approval or question row: its kind word, the auth id it names and its payload. */
  datatype Row = Row(kind: string, authId: string, payload: Json)

  // ----- the state fold

  datatype ThreadState = ThreadState(
    title: Option<string>,
    pinned: Option<bool>,
    archived: Option<bool>,
    annotations: map<string, Option<Json>>,
    project: Option<Option<string>>,
    planSnapshot: Option<Json>,
    goal: Option<Json>,
    cwd: Option<string>,
    accessMode: Option<string>,
    reasoningEffort: Option<string>)

  const EmptyState := ThreadState(None, None, None, map[], None, None, None, None, None, None)

  function Absorb(s: ThreadState, e: Entry): ThreadState {
    match e
    case Title(title) => s.(title := Some(title))
    case PinnedArchived(pinned, archived) => s.(pinned := Some(pinned), archived := Some(archived))
    case AnnotationSet(annotation) =>
      var id := Get(annotation, "id");
      if id.Some? && id.value.Str? then s.(annotations := s.annotations[id.value.s := Some(annotation)]) else s
    case AnnotationRemoved(id) => s.(annotations := s.annotations[id := None])
    case ProjectChange(path) => s.(project := Some(path))
    case PlanUpdate(snapshot) => s.(planSnapshot := Some(snapshot))
    case GoalEntry(goal) => s.(goal := Some(if goal.Some? then goal.value else Null))
    case CwdChange(cwd) => s.(cwd := Some(cwd))
    case AccessModeChange(mode) => s.(accessMode := Some(mode))
    case ThinkingLevelChange(level) => s.(reasoningEffort := Some(level))
    case Approval(_) => s
    case Question(_) => s
    case Unread => s
  }

  function ReplayFrom(s: ThreadState, records: seq<Entry>): ThreadState {
    if records == [] then s else Absorb(ReplayFrom(s, records[..|records| - 1]), records[|records| - 1])
  }

  function ReplayState(records: seq<Entry>): ThreadState {
    ReplayFrom(EmptyState, records)
  }

  method ReplayThreadState(records: seq<Entry>) returns (state: ThreadState)
    ensures state == ReplayState(records)
  {
    state := EmptyState;
    for i := 0 to |records|
      invariant state == ReplayState(records[..i])
    {
      assert records[..i + 1][..i] == records[..i];
      match records[i] {
        case Title(title) => state := state.(title := Some(title));
        case PinnedArchived(pinned, archived) => state := state.(pinned := Some(pinned), archived := Some(archived));
        case AnnotationSet(annotation) =>
          var id := Get(annotation, "id");
          if id.Some? && id.value.Str? {
            state := state.(annotations := state.annotations[id.value.s := Some(annotation)]);
          }
        case AnnotationRemoved(id) => state := state.(annotations := state.annotations[id := None]);
        case ProjectChange(path) => state := state.(project := Some(path));
        case PlanUpdate(snapshot) => state := state.(planSnapshot := Some(snapshot));
        case GoalEntry(goal) => state := state.(goal := Some(if goal.Some? then goal.value else Null));
        case CwdChange(cwd) => state := state.(cwd := Some(cwd));
        case AccessModeChange(mode) => state := state.(accessMode := Some(mode));
        case ThinkingLevelChange(level) => state := state.(reasoningEffort := Some(level));
        case _ =>
      }
    }
    assert records[..|records|] == records;
  }

  function Over<T>(a: Option<T>, b: Option<T>): Option<T> {
    if b.Some? then b else a
  }

  /** The later state laid over the earlier one, field by field; an annotation tombstone in the later
      state hides the earlier annotation. */
  function Overlay(a: ThreadState, b: ThreadState): ThreadState {
    ThreadState(Over(a.title, b.title), Over(a.pinned, b.pinned), Over(a.archived, b.archived),
                a.annotations + b.annotations, Over(a.project, b.project), Over(a.planSnapshot, b.planSnapshot),
                Over(a.goal, b.goal), Over(a.cwd, b.cwd), Over(a.accessMode, b.accessMode),
                Over(a.reasoningEffort, b.reasoningEffort))
  }

  lemma AbsorbOverlay(a: ThreadState, b: ThreadState, e: Entry)
    ensures Absorb(Overlay(a, b), e) == Overlay(a, Absorb(b, e))
  {
    match e {
      case AnnotationSet(annotation) =>
        var id := Get(annotation, "id");
        if id.Some? && id.value.Str? {
          var k, v := id.value.s, Some(annotation);
          assert (a.annotations + b.annotations)[k := v] == a.annotations + b.annotations[k := v];
        }
      case AnnotationRemoved(id) =>
        assert (a.annotations + b.annotations)[id := None] == a.annotations + b.annotations[id := None];
      case _ =>
    }
  }

  lemma {:induction false} ReplayFromOverlays(s: ThreadState, records: seq<Entry>)
    ensures ReplayFrom(s, records) == Overlay(s, ReplayState(records))
  {
    if records == [] {
      assert s.annotations + map[] == s.annotations;
    } else {
      var init := records[..|records| - 1];
      ReplayFromOverlays(s, init);
      AbsorbOverlay(s, ReplayState(init), records[|records| - 1]);
    }
  }

  lemma {:induction false} ReplayFromConcat(s: ThreadState, a: seq<Entry>, b: seq<Entry>)
    ensures ReplayFrom(s, a + b) == ReplayFrom(ReplayFrom(s, a), b)
    decreases |b|
  {
    if b == [] {
      assert a + b == a;
    } else {
      var all := a + b;
      assert all[..|all| - 1] == a + b[..|b| - 1];
      ReplayFromConcat(s, a, b[..|b| - 1]);
    }
  }

  /** Replay is compositional: a concatenated journal replays to the second part laid over the first. */
  lemma ReplayIsCompositional(a: seq<Entry>, b: seq<Entry>)
    ensures ReplayState(a + b) == Overlay(ReplayState(a), ReplayState(b))
  {
    ReplayFromConcat(EmptyState, a, b);
    ReplayFromOverlays(ReplayState(a), b);
  }

  /** What the last entry that `pick` reads carries. */
  function Last<T>(records: seq<Entry>, pick: Entry -> Option<T>): Option<T> {
    if records == [] then None
    else if pick(records[|records| - 1]).Some? then pick(records[|records| - 1])
    else Last(records[..|records| - 1], pick)
  }

  /** What an entry says of the annotation with this id: its text, or a tombstone. */
  function AnnotationOf(e: Entry, id: string): Option<Option<Json>> {
    match e
    case AnnotationSet(a) => if a.Obj? && "id" in a.fields && a.fields["id"] == Str(id) then Some(Some(a)) else None
    case AnnotationRemoved(gone) => if gone == id then Some(None) else None
    case _ => None
  }

  function TitleOf(e: Entry): Option<string> { if e.Title? then Some(e.title) else None }

  function PinnedOf(e: Entry): Option<bool> { if e.PinnedArchived? then Some(e.pinned) else None }

  function ArchivedOf(e: Entry): Option<bool> { if e.PinnedArchived? then Some(e.archived) else None }

  function ProjectOf(e: Entry): Option<Option<string>> { if e.ProjectChange? then Some(e.path) else None }

  function PlanOf(e: Entry): Option<Json> { if e.PlanUpdate? then Some(e.snapshot) else None }

  function CwdOf(e: Entry): Option<string> { if e.CwdChange? then Some(e.cwd) else None }

  function ModeOf(e: Entry): Option<string> { if e.AccessModeChange? then Some(e.mode) else None }

  function EffortOf(e: Entry): Option<string> { if e.ThinkingLevelChange? then Some(e.level) else None }

  /** Each restored field is what the last entry of its kind carries, whatever is interleaved. */
  lemma {:induction false} EachFieldIsItsLastEntry(records: seq<Entry>)
    ensures var s := ReplayState(records);
            && s.title == Last(records, TitleOf) && s.pinned == Last(records, PinnedOf)
            && s.archived == Last(records, ArchivedOf) && s.project == Last(records, ProjectOf)
            && s.planSnapshot == Last(records, PlanOf) && s.cwd == Last(records, CwdOf)
            && s.accessMode == Last(records, ModeOf) && s.reasoningEffort == Last(records, EffortOf)
  {
    if records == [] {
    } else {
      var init, e := records[..|records| - 1], records[|records| - 1];
      EachFieldIsItsLastEntry(init);
      AbsorbsItsField(ReplayState(init), e);
      LastStep(records, TitleOf);
      LastStep(records, PinnedOf);
      LastStep(records, ArchivedOf);
      LastStep(records, ProjectOf);
      LastStep(records, PlanOf);
      LastStep(records, CwdOf);
      LastStep(records, ModeOf);
      LastStep(records, EffortOf);
    }
  }

  lemma AbsorbsItsField(s: ThreadState, e: Entry)
    ensures var t := Absorb(s, e);
            && t.title == Over(s.title, TitleOf(e)) && t.pinned == Over(s.pinned, PinnedOf(e))
            && t.archived == Over(s.archived, ArchivedOf(e)) && t.project == Over(s.project, ProjectOf(e))
            && t.planSnapshot == Over(s.planSnapshot, PlanOf(e)) && t.cwd == Over(s.cwd, CwdOf(e))
            && t.accessMode == Over(s.accessMode, ModeOf(e)) && t.reasoningEffort == Over(s.reasoningEffort, EffortOf(e))
  {
  }

  lemma LastStep<T>(records: seq<Entry>, pick: Entry -> Option<T>)
    requires records != []
    ensures Last(records, pick) == Over(Last(records[..|records| - 1], pick), pick(records[|records| - 1]))
  {
  }

  lemma {:induction false} EachAnnotationIsItsLastEntry(records: seq<Entry>, id: string)
    ensures var s := ReplayState(records).annotations;
            Last(records, e => AnnotationOf(e, id)) == if id in s then Some(s[id]) else None
  {
    if records == [] {
    } else {
      EachAnnotationIsItsLastEntry(records[..|records| - 1], id);
    }
  }

  function GoalRows(records: seq<Entry>): seq<Option<Json>> {
    if records == [] then [] else
    var earlier := GoalRows(records[..|records| - 1]);
    if records[|records| - 1].GoalEntry? then earlier + [records[|records| - 1].goal] else earlier
  }

  /** The restored goal is the last goal row, whatever is interleaved; an absent payload is the explicit
      null and no row at all is no goal. */
  lemma {:induction false} ReplayedGoalIsLastRow(records: seq<Entry>)
    ensures var rows := GoalRows(records);
            ReplayState(records).goal ==
              if rows == [] then None else Some(if rows[|rows| - 1].Some? then rows[|rows| - 1].value else Null)
  {
    if records == [] {
    } else {
      ReplayedGoalIsLastRow(records[..|records| - 1]);
    }
  }

  // ----- the pairing fold

  datatype Interaction = Interaction(authId: string, toolName: string, summary: string, input: Json)

  function InteractionOf(r: Row): Interaction {
    var input := Get(r.payload, "input");
    Interaction(r.authId, StrOrEmpty(Get(r.payload, "toolName")), StrOrEmpty(Get(r.payload, "summary")),
                if input.Some? then input.value else Null)
  }

  predicate Settles(r: Row) {
    r.kind == "request" || r.kind == "decision"
  }

  function Without(parks: seq<Interaction>, id: string): seq<Interaction> {
    if parks == [] then [] else
    var kept := Without(parks[..|parks| - 1], id);
    if parks[|parks| - 1].authId != id then kept + [parks[|parks| - 1]] else kept
  }

  function Track(parks: seq<Interaction>, r: Row): seq<Interaction> {
    if r.kind == "request" then Without(parks, r.authId) + [InteractionOf(r)]
    else if r.kind == "decision" then Without(parks, r.authId)
    else parks
  }

  function Unsettled(rows: seq<Row>): seq<Interaction> {
    if rows == [] then [] else Track(Unsettled(rows[..|rows| - 1]), rows[|rows| - 1])
  }

  /** A request that no later request or decision of its id follows. */
  predicate Survives(rows: seq<Row>, i: nat)
    requires i < |rows|
  {
    rows[i].kind == "request" &&
    forall j :: i < j < |rows| && rows[j].authId == rows[i].authId ==> !Settles(rows[j])
  }

  /** The surviving requests among the first `n` rows, in chain order. */
  function Survivors(rows: seq<Row>, n: nat): seq<Interaction>
    requires n <= |rows|
  {
    if n == 0 then [] else
    var earlier := Survivors(rows, n - 1);
    if Survives(rows, n - 1) then earlier + [InteractionOf(rows[n - 1])] else earlier
  }

  /** One more row: it silences the survivors of its own id when it is a request or a decision. */
  lemma {:induction false} SurvivorsStep(rows: seq<Row>, r: Row, n: nat)
    requires n <= |rows|
    ensures Survivors(rows + [r], n) == if Settles(r) then Without(Survivors(rows, n), r.authId) else Survivors(rows, n)
    decreases n
  {
    if n == 0 {
    } else {
      SurvivorsStep(rows, r, n - 1);
      var longer := rows + [r];
      assert longer[n - 1] == rows[n - 1];
      SurvivesStep(rows, r, n - 1);
    }
  }

  lemma SurvivesStep(rows: seq<Row>, r: Row, i: nat)
    requires i < |rows|
    ensures Survives(rows + [r], i) <==> Survives(rows, i) && !(Settles(r) && r.authId == rows[i].authId)
  {
    var longer := rows + [r];
    assert longer[i] == rows[i] && longer[|rows|] == r;
    assert forall j :: 0 <= j < |rows| ==> longer[j] == rows[j];
  }

  /** The fold's survivors are exactly the requests nothing later of their id settles: each unsettled id
      once, in the order of its last row. */
  lemma {:induction false} UnsettledAreTheSurvivors(rows: seq<Row>)
    ensures Unsettled(rows) == Survivors(rows, |rows|)
  {
    if rows == [] {
    } else {
      var init, r := rows[..|rows| - 1], rows[|rows| - 1];
      assert init + [r] == rows;
      UnsettledAreTheSurvivors(init);
      SurvivorsStep(init, r, |init|);
    }
  }

  function ApprovalRows(records: seq<Entry>): seq<Row> {
    if records == [] then [] else
    var earlier := ApprovalRows(records[..|records| - 1]);
    if records[|records| - 1].Approval? then earlier + [records[|records| - 1].row] else earlier
  }

  function QuestionRows(records: seq<Entry>): seq<Row> {
    if records == [] then [] else
    var earlier := QuestionRows(records[..|records| - 1]);
    if records[|records| - 1].Question? then earlier + [records[|records| - 1].row] else earlier
  }

  lemma UnsettledStep(rows: seq<Row>, r: Row)
    ensures Unsettled(rows + [r]) == Track(Unsettled(rows), r)
  {
    var longer := rows + [r];
    assert longer[..|longer| - 1] == rows;
  }

  /** The scan over a mixed chain: approvals and questions pair separately. */
  method UnsettledInteractions(records: seq<Entry>) returns (approvals: seq<Interaction>, questions: seq<Interaction>)
    ensures approvals == Survivors(ApprovalRows(records), |ApprovalRows(records)|)
    ensures questions == Survivors(QuestionRows(records), |QuestionRows(records)|)
  {
    approvals, questions := [], [];
    for i := 0 to |records|
      invariant approvals == Unsettled(ApprovalRows(records[..i]))
      invariant questions == Unsettled(QuestionRows(records[..i]))
    {
      assert records[..i + 1][..i] == records[..i];
      match records[i] {
        case Approval(row) =>
          UnsettledStep(ApprovalRows(records[..i]), row);
          approvals := Track(approvals, row);
        case Question(row) =>
          UnsettledStep(QuestionRows(records[..i]), row);
          questions := Track(questions, row);
        case _ =>
      }
    }
    assert records[..|records|] == records;
    UnsettledAreTheSurvivors(ApprovalRows(records));
    UnsettledAreTheSurvivors(QuestionRows(records));
  }
}
