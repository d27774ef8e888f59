/** The goal domain model: one durable autonomy contract per thread, folded strictly from events. Revisions and
    rounds are unbounded naturals; token accounting saturates at the 64-bit maximum. */
module Goal {
  import opened Wrappers
  import Text

  const MAX_OBJECTIVE_CHARS: nat := 4000
  const BLOCKED_MIN_GOAL_ROUNDS: nat := 3
  const GOAL_EVENT_VERSION: nat := 1

  datatype GoalStatus = Active | Paused | Blocked | BudgetLimited | Complete {
    predicate IsTerminal() {
      Blocked? || BudgetLimited? || Complete?
    }

    predicate CanTransitionTo(next: GoalStatus) {
      || this == next
      || (Active? && !next.Active?)
      || ((Paused? || Blocked? || BudgetLimited?) && next.Active?)
      || (BudgetLimited? && (next.Blocked? || next.Complete?))
    }
  }

  datatype GoalActor = User | Model | System

  datatype BlockReason = BlockReason(code: string, message: string)

  datatype GoalOperation = EditOp | PauseOp | ResumeOp | CompleteOp | BlockOp

  datatype ThreadGoal = ThreadGoal(
    threadId: string,
    goalId: string,
    objective: string,
    status: GoalStatus,
    tokenBudget: Option<nat>,
    tokensUsed: nat,
    maxRounds: Option<nat>,
    roundsStarted: nat,
    revision: nat,
    blockedReason: Option<BlockReason>,
    createdAt: int,
    updatedAt: int
  ) {
    predicate BudgetExhausted() {
      tokenBudget.Some? && tokensUsed >= tokenBudget.value
    }

    predicate RoundsExhausted() {
      maxRounds.Some? && roundsStarted >= maxRounds.value
    }

    /** The refusal of `can_resume`, in its order of checks; `None` admits the resume. */
    function ResumeRefusal(): Option<GoalError> {
      if BudgetExhausted() then Some(TokenBudgetExhausted)
      else if RoundsExhausted() then Some(RoundLimitExhausted)
      else if status.Complete? then Some(CompletedCannotResume)
      else None
    }

    predicate SameDefinition(next: ThreadGoal) {
      objective == next.objective && tokenBudget == next.tokenBudget && maxRounds == next.maxRounds
    }
  }

  datatype GoalEvent = GoalEvent(version: nat, kind: GoalEventKind)

  datatype GoalEventKind =
    | Created(actor: GoalActor, goal: ThreadGoal, createdAt: int)
    | Updated(actor: GoalActor, operation: GoalOperation, goal: ThreadGoal, createdAt: int)
    | Round(goalId: string, revision: nat, round: nat, tokensDelta: nat, admittedAt: int)
    | Cleared(actor: GoalActor, goalId: string, revision: nat, clearedAt: int)

  datatype GoalError =
    | UnsupportedVersion | CreatedBadRevision | CreatedBadRounds | CreatedNotActive | CreatedBadTokens
    | UnfinishedGoalExists | CreatedAtMismatch
    | NoGoal | WrongGoalId | StaleRevision | CreatedAtChanged | RoundsChanged | ClockRegressed
    | EditChangedStatus | EditChangedReason | BadTransition | DefinitionChanged
    | ResumeBeyondRounds | ResumeKeepsReason | BlockNeedsReason
    | RoundWhileStopped | RoundOutOfOrder | RoundBeyondLimit
    | TokenBudgetExhausted | RoundLimitExhausted | CompletedCannotResume
    | EmptyObjective | ObjectiveTooLong | ZeroBudget | ZeroRounds
    | BadReasonCode | BlankReasonMessage | BudgetLimitedNotSettable
    | TooFewRoundsToBlock | NotReportable | EventTypeMismatch

  // ----- the fold

  /** `None` when a status operation keeps the rules of its kind. */
  function OperationFault(op: GoalOperation, current: ThreadGoal, goal: ThreadGoal): Option<GoalError> {
    match op
    case EditOp =>
      if goal.status != current.status then Some(EditChangedStatus)
      else if goal.blockedReason != current.blockedReason then Some(EditChangedReason)
      else None
    case PauseOp =>
      if !current.status.Active? || !goal.status.Paused? then Some(BadTransition)
      else if !current.SameDefinition(goal) then Some(DefinitionChanged)
      else None
    case ResumeOp =>
      if current.status.Complete? || !goal.status.Active? then Some(BadTransition)
      else if !current.SameDefinition(goal) then Some(DefinitionChanged)
      else if goal.RoundsExhausted() then Some(ResumeBeyondRounds)
      else if goal.blockedReason.Some? then Some(ResumeKeepsReason)
      else None
    case CompleteOp =>
      if current.status.Complete? || !goal.status.Complete? then Some(BadTransition)
      else if !current.SameDefinition(goal) then Some(DefinitionChanged)
      else None
    case BlockOp =>
      if !current.status.Active? || !goal.status.Blocked? then Some(BadTransition)
      else if !current.SameDefinition(goal) then Some(DefinitionChanged)
      else if goal.blockedReason.None? then Some(BlockNeedsReason)
      else None
  }

  const BudgetReason := BlockReason("budget-limited", "token budget exhausted")

  /** The goal after one admitted round. */
  function Charge(g: ThreadGoal, round: nat, tokensDelta: nat, admittedAt: int): ThreadGoal {
    var next := g.(roundsStarted := round,
                   tokensUsed := SaturatingAdd(g.tokensUsed, tokensDelta),
                   updatedAt := admittedAt);
    if next.BudgetExhausted()
    then next.(status := BudgetLimited, blockedReason := Some(BudgetReason))
    else next
  }

  function Apply(state: Option<ThreadGoal>, event: GoalEvent): Result<Option<ThreadGoal>, GoalError> {
    if event.version != GOAL_EVENT_VERSION then Err(UnsupportedVersion) else
    match event.kind
    case Created(_, goal, createdAt) =>
      if goal.revision != 1 then Err(CreatedBadRevision)
      else if goal.roundsStarted != 0 then Err(CreatedBadRounds)
      else if !goal.status.Active? then Err(CreatedNotActive)
      else if goal.tokensUsed != 0 then Err(CreatedBadTokens)
      else if state.Some? && !state.value.status.Complete? then Err(UnfinishedGoalExists)
      else if goal.createdAt != createdAt then Err(CreatedAtMismatch)
      else Ok(Some(goal))
    case Updated(_, op, goal, _) =>
      if state.None? then Err(NoGoal) else
      var current := state.value;
      if current.goalId != goal.goalId then Err(WrongGoalId)
      else if goal.revision != current.revision + 1 then Err(StaleRevision)
      else if goal.createdAt != current.createdAt then Err(CreatedAtChanged)
      else if goal.roundsStarted != current.roundsStarted then Err(RoundsChanged)
      else if goal.updatedAt < current.updatedAt then Err(ClockRegressed)
      else
        var fault := OperationFault(op, current, goal);
        if fault.Some? then Err(fault.value) else Ok(Some(goal))
    case Round(goalId, revision, round, tokensDelta, admittedAt) =>
      if state.None? then Err(NoGoal) else
      var current := state.value;
      if current.goalId != goalId then Err(WrongGoalId)
      else if !current.status.Active? then Err(RoundWhileStopped)
      else if current.revision != revision then Err(StaleRevision)
      else if round != current.roundsStarted + 1 then Err(RoundOutOfOrder)
      else if current.maxRounds.Some? && round > current.maxRounds.value then Err(RoundBeyondLimit)
      else Ok(Some(Charge(current, round, tokensDelta, admittedAt)))
    case Cleared(_, goalId, revision, _) =>
      if state.None? then Err(NoGoal) else
      if state.value.goalId != goalId then Err(WrongGoalId)
      else if state.value.revision + 1 != revision then Err(StaleRevision)
      else Ok(None)
  }

  /** What a status change must keep and may change, by its kind. */
  predicate Permits(op: GoalOperation, g: ThreadGoal, h: ThreadGoal) {
    var sameDefinition := g.objective == h.objective && g.tokenBudget == h.tokenBudget && g.maxRounds == h.maxRounds;
    match op
    case EditOp => h.status == g.status && h.blockedReason == g.blockedReason
    case PauseOp => g.status == Active && h.status == Paused && sameDefinition
    case ResumeOp =>
      && g.status != Complete && h.status == Active && sameDefinition && h.blockedReason == None
      && (h.maxRounds.Some? ==> h.roundsStarted < h.maxRounds.value)
    case CompleteOp => g.status != Complete && h.status == Complete && sameDefinition
    case BlockOp => g.status == Active && h.status == Blocked && sameDefinition && h.blockedReason.Some?
  }

  /** Which events the strict fold accepts, whoever wrote them: a creation over no goal or a Complete one, of a goal
      that starts Active, at revision 1, unspent; an update of the current goal that takes its next revision, keeps
      its identity and rounds, does not go back in time and is permitted by its kind; the next round of the
      Active goal at its revision and within its cap; a clear at the next revision. */
  lemma EventAcceptedExactlyWhen(state: Option<ThreadGoal>, e: GoalEvent)
    ensures Apply(state, e).Ok? <==>
              e.version == 1 &&
              match e.kind
              case Created(_, h, createdAt) =>
                && (state.Some? ==> state.value.status == Complete)
                && h.revision == 1 && h.roundsStarted == 0 && h.tokensUsed == 0 && h.status == Active && h.createdAt == createdAt
              case Updated(_, op, h, _) =>
                && state.Some?
                && var g := state.value;
                && h.goalId == g.goalId && h.revision == g.revision + 1 && h.createdAt == g.createdAt
                && h.roundsStarted == g.roundsStarted && g.updatedAt <= h.updatedAt && Permits(op, g, h)
              case Round(goalId, revision, round, _, _) =>
                && state.Some?
                && var g := state.value;
                && goalId == g.goalId && revision == g.revision && round == g.roundsStarted + 1 && g.status == Active
                && (g.maxRounds.Some? ==> round <= g.maxRounds.value)
              case Cleared(_, goalId, revision, _) =>
                state.Some? && goalId == state.value.goalId && revision == state.value.revision + 1
  {
  }

  /** What an accepted event makes of the goal: the goal it carries, none, or the goal with one more round, its
      tokens added up to the 64-bit maximum, and BudgetLimited exactly when they now reach a budget. */
  lemma AcceptedEventMakes(state: Option<ThreadGoal>, e: GoalEvent)
    requires Apply(state, e).Ok?
    ensures match e.kind
            case Created(_, h, _) => Apply(state, e).value == Some(h)
            case Updated(_, _, h, _) => Apply(state, e).value == Some(h)
            case Cleared(_, _, _, _) => Apply(state, e).value == None
            case Round(_, _, round, delta, at) =>
              && state.Some? && Apply(state, e).value.Some?
              && var g, h := state.value, Apply(state, e).value.value;
              var spent := if g.tokensUsed + delta > U64_MAX then U64_MAX else g.tokensUsed + delta;
              var over := g.tokenBudget.Some? && spent >= g.tokenBudget.value;
              h == g.(roundsStarted := round, tokensUsed := spent, updatedAt := at,
                      status := if over then BudgetLimited else g.status,
                      blockedReason := if over then Some(BlockReason("budget-limited", "token budget exhausted")) else g.blockedReason)
  {
  }

  /** Only version 1 events are folded. */
  lemma OtherVersionsAreRefused(state: Option<ThreadGoal>, e: GoalEvent)
    ensures e.version != 1 ==> Apply(state, e) == Err(UnsupportedVersion)
    ensures Apply(state, e.(version := 1)) != Err(UnsupportedVersion)
  {
  }

  /** A batch applies event by event; the first refusal refuses the batch. */
  function ApplyAll(state: Option<ThreadGoal>, events: seq<GoalEvent>): Result<Option<ThreadGoal>, GoalError>
    decreases |events|
  {
    if events == [] then Ok(state) else
    var next := Apply(state, events[0]);
    if next.Err? then next else ApplyAll(next.value, events[1..])
  }

  function Fold(events: seq<GoalEvent>): Result<Option<ThreadGoal>, GoalError> {
    ApplyAll(None, events)
  }

  lemma {:induction false} ApplyAllConcat(state: Option<ThreadGoal>, a: seq<GoalEvent>, b: seq<GoalEvent>)
    ensures ApplyAll(state, a + b)
         == if ApplyAll(state, a).Err? then ApplyAll(state, a) else ApplyAll(ApplyAll(state, a).value, b)
    decreases |a|
  {
    if a == [] {
      assert a + b == b;
    } else {
      assert (a + b)[0] == a[0] && (a + b)[1..] == a[1..] + b;
      var next := Apply(state, a[0]);
      if next.Ok? { ApplyAllConcat(next.value, a[1..], b); }
    }
  }

  lemma ApplyAllOne(state: Option<ThreadGoal>, e: GoalEvent)
    ensures ApplyAll(state, [e]) == Apply(state, e)
  {
    assert [e][1..] == [];
  }

  /** One more event: the fold of a longer prefix, and the failure of the whole when it fails. */
  lemma FoldStep(events: seq<GoalEvent>, i: nat)
    requires i < |events| && Fold(events[..i]).Ok?
    ensures Fold(events[..i + 1]) == Apply(Fold(events[..i]).value, events[i])
    ensures Fold(events[..i + 1]).Err? ==> Fold(events) == Fold(events[..i + 1])
  {
    assert events[..i + 1] == events[..i] + [events[i]];
    ApplyAllConcat(None, events[..i], [events[i]]);
    assert events == events[..i + 1] + events[i + 1..];
    ApplyAllConcat(None, events[..i + 1], events[i + 1..]);
  }

  /** A stored row carries a type column beside its self-describing payload. */
  datatype StoredEvent = StoredEvent(eventType: string, event: GoalEvent)

  function EventType(e: GoalEvent): string {
    match e.kind
    case Created(_, _, _) => "goal_created"
    case Updated(_, _, _, _) => "goal_updated"
    case Round(_, _, _, _, _) => "goal_round"
    case Cleared(_, _, _, _) => "goal_cleared"
  }

  /** The type column names the kind of the event. */
  lemma TypeNamesItsKind(e: GoalEvent)
    ensures EventType(e) == "goal_created" <==> e.kind.Created?
    ensures EventType(e) == "goal_updated" <==> e.kind.Updated?
    ensures EventType(e) == "goal_round" <==> e.kind.Round?
    ensures EventType(e) == "goal_cleared" <==> e.kind.Cleared?
  {
    assert EventType(e)[5] == match e.kind
                              case Created(_, _, _) => 'c'
                              case Updated(_, _, _, _) => 'u'
                              case Round(_, _, _, _, _) => 'r'
                              case Cleared(_, _, _, _) => 'c';
    assert "goal_created"[6] == 'r' && "goal_cleared"[6] == 'l';
  }

  function Payloads(rows: seq<StoredEvent>): seq<GoalEvent> {
    seq(|rows|, i requires 0 <= i < |rows| => rows[i].event)
  }

  /** The strict scan of `fold_goal_events`: it succeeds exactly when every column agrees with its
      payload and the payloads fold, and then yields that fold. */
  method FoldGoalEvents(rows: seq<StoredEvent>) returns (r: Result<Option<ThreadGoal>, GoalError>)
    ensures r.Ok? <==> (forall i :: 0 <= i < |rows| ==> rows[i].eventType == EventType(rows[i].event))
                       && Fold(Payloads(rows)).Ok?
    ensures r.Ok? ==> r == Fold(Payloads(rows))
  {
    var state: Option<ThreadGoal> := None;
    ghost var all := Payloads(rows);
    for i := 0 to |rows|
      invariant forall k :: 0 <= k < i ==> rows[k].eventType == EventType(rows[k].event)
      invariant Fold(all[..i]) == Ok(state)
    {
      if EventType(rows[i].event) != rows[i].eventType { return Err(EventTypeMismatch); }
      var next := Apply(state, rows[i].event);
      FoldStep(all, i);
      if next.Err? { return Err(next.error); }
      state := next.value;
    }
    assert all[..|rows|] == all;
    return Ok(state);
  }

  // ----- validation

  function ValidateObjective(objective: string): Result<string, GoalError> {
    var o := Text.Trim(objective);
    if o == "" then Err(EmptyObjective)
    else if |o| > MAX_OBJECTIVE_CHARS then Err(ObjectiveTooLong)
    else Ok(o)
  }

  /** An objective is accepted exactly when something of at most 4000 characters is left between its blank
      ends, and that is what is kept. */
  lemma ObjectiveAccepted(o: string) returns (i: nat, j: nat)
    ensures i <= j <= |o| && Text.AllWhitespace(o[..i]) && Text.AllWhitespace(o[j..])
    ensures i < j ==> !Text.IsWhitespace(o[i]) && !Text.IsWhitespace(o[j - 1])
    ensures ValidateObjective(o) == if i == j then Err(EmptyObjective) else if j - i > 4000 then Err(ObjectiveTooLong) else Ok(o[i..j])
  {
    i, j := Text.TrimAt(o);
  }

  predicate IsLower(c: char) { 'a' <= c <= 'z' }

  predicate IsAlphanumeric(c: char) { IsLower(c) || 'A' <= c <= 'Z' || '0' <= c <= '9' }

  /** A blocker code: a lower-case first letter, then alphanumerics separated by single hyphens. */
  predicate KebabCode(code: string) {
    && code != ""
    && IsLower(code[0])
    && (forall i :: 1 <= i < |code| ==> code[i] == '-' || IsAlphanumeric(code[i]))
    && (forall i, j :: 1 <= i && j == i + 1 < |code| ==> !(code[i] == '-' && code[j] == '-'))
    && code[|code| - 1] != '-'
  }

  /** The scan of `is_kebab_code` with its one-character memory decides exactly `KebabCode`. */
  method IsKebabCode(code: string) returns (ok: bool)
    ensures ok <==> KebabCode(code)
  {
    if code == "" { return false; }
    if !IsLower(code[0]) { return false; }
    var afterDash := false;
    for i := 1 to |code|
      invariant forall k :: 1 <= k < i ==> code[k] == '-' || IsAlphanumeric(code[k])
      invariant forall k, j :: 1 <= k && j == k + 1 < i ==> !(code[k] == '-' && code[j] == '-')
      invariant afterDash <==> (i > 1 && code[i - 1] == '-')
    {
      if code[i] == '-' {
        if afterDash { return false; }
        afterDash := true;
      } else if IsAlphanumeric(code[i]) {
        afterDash := false;
      } else {
        return false;
      }
    }
    return !afterDash;
  }

  /** The code's documentation promises lower case throughout; the scan lets upper case through
      everywhere but in first place. */
  lemma KebabAdmitsUpperCase()
    ensures KebabCode("aB")
  {
  }

  /** Letters of either case and digits. */
  predicate IsAlnumWord(s: string) {
    s != "" && forall i :: 0 <= i < |s| ==> 'a' <= s[i] <= 'z' || 'A' <= s[i] <= 'Z' || '0' <= s[i] <= '9'
  }

  /** A code is a word with a lower-case first letter, or a code, a hyphen and a word. */
  lemma KebabReads(code: string, word: string)
    requires '-' !in word
    ensures KebabCode(word) <==> IsAlnumWord(word) && 'a' <= word[0] <= 'z'
    ensures KebabCode(code + "-" + word) <==> KebabCode(code) && IsAlnumWord(word)
  {
    var all := code + "-" + word;
    assert all[|code|] == '-';
    assert forall i :: 0 <= i < |code| ==> all[i] == code[i];
    assert forall i :: 0 <= i < |word| ==> all[|code| + 1 + i] == word[i];
    assert all[0] == (if code == "" then '-' else code[0]);
    if KebabCode(all) { KebabParts(all, code, word); }
    if KebabCode(code) && IsAlnumWord(word) { KebabWhole(all, code, word); }
  }

  lemma KebabParts(all: string, code: string, word: string)
    requires all == code + "-" + word && '-' !in word && code != "" && KebabCode(all)
    ensures KebabCode(code) && IsAlnumWord(word)
  {
    assert forall i :: 0 <= i < |code| ==> all[i] == code[i];
    assert forall i :: 0 <= i < |word| ==> all[|code| + 1 + i] == word[i];
    assert all[|code|] == '-' && all[|code| - 1] == code[|code| - 1];
    assert word != "";
    forall i | 0 <= i < |word| ensures IsAlphanumeric(word[i]) {
      assert word[i] in word;
      assert all[|code| + 1 + i] == word[i];
    }
  }

  lemma KebabWhole(all: string, code: string, word: string)
    requires all == code + "-" + word && KebabCode(code) && IsAlnumWord(word)
    ensures KebabCode(all)
  {
    forall i | 1 <= i < |all| ensures all[i] == '-' || IsAlphanumeric(all[i]) {
      assert i < |code| ==> all[i] == code[i];
      assert i > |code| ==> all[i] == word[i - |code| - 1];
    }
    forall i, j | 1 <= i && j == i + 1 < |all| ensures !(all[i] == '-' && all[j] == '-') {
      assert i < |code| ==> all[i] == code[i];
      assert j < |code| ==> all[j] == code[j];
      assert i > |code| ==> all[i] == word[i - |code| - 1];
      assert j > |code| ==> all[j] == word[j - |code| - 1];
    }
    assert all[0] == code[0] && all[|all| - 1] == word[|word| - 1];
  }

  predicate IsWord(s: string) {
    s != "" && forall i :: 0 <= i < |s| ==> IsLower(s[i])
  }

  /** Two lower-case words joined by a hyphen make a code. */
  lemma TwoWordsAreKebab(a: string, b: string)
    requires IsWord(a) && IsWord(b)
    ensures KebabCode(a + "-" + b)
  {
    var code := a + "-" + b;
    assert forall i :: 0 <= i < |a| ==> code[i] == a[i];
    assert forall i :: 0 <= i < |b| ==> code[|a| + 1 + i] == b[i];
    forall i | 0 <= i < |code| ensures code[i] == '-' || IsLower(code[i]) {
      assert i < |a| || i == |a| || code[i] == b[i - |a| - 1];
    }
  }

  function ReasonFault(reason: BlockReason): Option<GoalError> {
    if !KebabCode(reason.code) then Some(BadReasonCode)
    else if Text.Trim(reason.message) == "" then Some(BlankReasonMessage)
    else None
  }
}
