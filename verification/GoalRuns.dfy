/** What every run of the goal bridge keeps, across any mix of requests, disarms and process restarts. */
module GoalRuns {
  import opened Wrappers
  import opened Goal
  import opened GoalService
  import Text

  datatype Action = Do(req: Request) | Disarmed | Restarted(now: int)

  function Step(s: BridgeState, a: Action): BridgeState {
    match a
    case Do(req) => Exec(s, req).state
    case Disarmed => s.(armed := false)
    case Restarted(now) => Restart(s, now)
  }

  function Run(s: BridgeState, acts: seq<Action>): BridgeState {
    if acts == [] then s else Step(Run(s, acts[..|acts| - 1]), acts[|acts| - 1])
  }

  // ----- which requests are accepted

  /** The status moves that survive both the transition table and the fold. */
  predicate StatusMove(from: GoalStatus, to: GoalStatus) {
    match to
    case Paused => from.Active?
    case Blocked => from.Active?
    case Complete => from.Active? || from.BudgetLimited?
    case Active => !from.Complete?
    case BudgetLimited => false
  }

  predicate AdmitsStatus(g: ThreadGoal, to: GoalStatus, reason: Option<BlockReason>, now: int) {
    && StatusMove(g.status, to)
    && (to.Active? ==> !g.BudgetExhausted() && !g.RoundsExhausted())
    && (reason.Some? ==> ReasonFault(reason.value).None?)
    && (to.Blocked? ==> reason.Some?)
    && g.updatedAt <= now
  }

  predicate Admits(current: Option<ThreadGoal>, req: Request) {
    match req
    case CreateReq(d, _, _, _) =>
      (current.Some? ==> current.value.status.Complete?) && CheckDraft(d).Ok?
    case EditReq(d, _, now) => current.Some? && CheckDraft(d).Ok? && current.value.updatedAt <= now
    case ReplaceReq(d, _, _, _) => current.Some? && CheckDraft(d).Ok?
    case SetStatusReq(status, reason, _, now) => current.Some? && AdmitsStatus(current.value, status, reason, now)
    case ClearReq(_, _) => true
    case AccountReq(round, revision, goalId, _, _) =>
      && current.Some?
      && var g := current.value;
      && g.goalId == goalId && g.revision == revision && round == g.roundsStarted + 1
      && g.status.Active? && !g.RoundsExhausted()
    case ModelReq(status, message, now) =>
      && current.Some?
      && (status.Complete? || (status.Blocked? && current.value.roundsStarted >= 3))
      && AdmitsStatus(current.value, status, if status.Blocked? then Some(ModelReason(message)) else None, now)
  }

  /** A request is accepted exactly when its admission condition holds of the current goal; a refused
      one changes nothing, and an accepted one that appends routes one row holding the new state. */
  lemma AcceptedExactlyWhenAdmitted(s: BridgeState, req: Request)
    ensures Exec(s, req).result.Ok? <==> Admits(s.current, req)
    ensures Exec(s, req).result.Err? ==> Exec(s, req).state == s
    ensures Exec(s, req).result.Ok? ==> Exec(s, req).result == Ok(Exec(s, req).state.current)
  {
    SingleEventPlans(s.threadId, s.current, req);
    match req {
      case SetStatusReq(status, reason, actor, now) => StatusAccepted(s.current, status, reason, actor, now);
      case ModelReq(Complete, message, now) => StatusAccepted(s.current, Complete, None, Model, now);
      case ModelReq(Blocked, message, now) => StatusAccepted(s.current, Blocked, Some(ModelReason(message)), Model, now);
      case ReplaceReq(d, actor, id, now) =>
        if s.current.Some? && CheckDraft(d).Ok? { ReplaceApplies(s.threadId, s.current.value, d, actor, id, now); }
      case _ =>
    }
  }

  /** Every batch but that of replace is one event. */
  lemma SingleEventPlans(threadId: string, snapshot: Option<ThreadGoal>, req: Request)
    ensures var plan := PlanFor(threadId, snapshot, req);
            plan.Batch? && !req.ReplaceReq? ==>
              |plan.events| == 1 && forall state :: ApplyAll(state, plan.events) == Apply(state, plan.events[0])
  {
    var plan := PlanFor(threadId, snapshot, req);
    if plan.Batch? && !req.ReplaceReq? {
      assert plan.events == [plan.events[0]];
      forall state { ApplyAllOne(state, plan.events[0]); }
    }
  }

  lemma ReplaceApplies(threadId: string, g: ThreadGoal, d: Draft, actor: GoalActor, id: string, now: int)
    requires CheckDraft(d).Ok?
    ensures var plan := PlanReplace(threadId, Some(g), d, actor, id, now);
            plan.Batch? && ApplyAll(Some(g), plan.events) == Ok(Some(NewGoal(threadId, d, id, now).value))
  {
    var events := PlanReplace(threadId, Some(g), d, actor, id, now).events;
    assert Apply(Some(g), events[0]) == Ok(None);
    assert events[1..] == [events[1]];
    ApplyAllOne(None, events[1]);
  }

  lemma StatusAccepted(current: Option<ThreadGoal>, status: GoalStatus, reason: Option<BlockReason>, actor: GoalActor, now: int)
    ensures var plan := PlanSetStatus(current, status, reason, actor, now);
            (plan.Batch? && ApplyAll(current, plan.events).Ok?) <==> current.Some? && AdmitsStatus(current.value, status, reason, now)
    ensures !PlanSetStatus(current, status, reason, actor, now).Nothing?
  {
  }

  /** A goal as a draft starts it: Active, revision 1, nothing spent. */
  predicate StartedFrom(g: ThreadGoal, d: Draft, id: string, now: int) {
    && g.goalId == id && ValidateObjective(d.objective) == Ok(g.objective)
    && g.tokenBudget == d.tokenBudget && g.maxRounds == d.maxRounds
    && g.status.Active? && g.revision == 1 && g.roundsStarted == 0 && g.tokensUsed == 0 && g.blockedReason.None?
    && g.createdAt == g.updatedAt == now
  }

  /** One revision on: same identity and accounting, stamped now. */
  predicate Revised(g: ThreadGoal, h: ThreadGoal, now: int) {
    && h.goalId == g.goalId && h.threadId == g.threadId && h.createdAt == g.createdAt
    && h.revision == g.revision + 1 && h.updatedAt == now
    && h.roundsStarted == g.roundsStarted && h.tokensUsed == g.tokensUsed
  }

  predicate MovedTo(g: ThreadGoal, h: ThreadGoal, status: GoalStatus, reason: Option<BlockReason>, now: int) {
    Revised(g, h, now) && g.SameDefinition(h) && h.status == status && h.blockedReason == reason
  }

  /** What an accepted request makes of the goal and of the continuation authority, field by field. */
  lemma EffectOfAccepted(s: BridgeState, req: Request)
    requires Admits(s.current, req)
    ensures var t := Exec(s, req).state;
            match req
            case CreateReq(d, _, id, now) => t.current.Some? && StartedFrom(t.current.value, d, id, now) && t.armed
            case ReplaceReq(d, _, id, now) => t.current.Some? && StartedFrom(t.current.value, d, id, now) && t.armed
            case EditReq(d, _, now) =>
              && t.current.Some? && t.armed == s.armed
              && var g, h := s.current.value, t.current.value;
              && Revised(g, h, now) && h.status == g.status && h.blockedReason == g.blockedReason
              && ValidateObjective(d.objective) == Ok(h.objective) && h.tokenBudget == d.tokenBudget && h.maxRounds == d.maxRounds
            case SetStatusReq(status, reason, _, now) =>
              && t.current.Some? && t.armed == status.Active?
              && MovedTo(s.current.value, t.current.value, status, if status.Paused? || status.Blocked? then reason else None, now)
            case ClearReq(_, _) => t.current.None? && (s.current.Some? ==> !t.armed)
            case AccountReq(round, _, _, delta, now) =>
              t.current == Some(Charge(s.current.value, round, delta, now)) && (t.armed <==> s.armed && IsActive(t.current))
            case ModelReq(status, message, now) =>
              && t.current.Some? && !t.armed
              && MovedTo(s.current.value, t.current.value, status,
                         if status.Blocked? then Some(BlockReason("model-reported", if message.Some? then message.value else "")) else None, now)
  {
    AcceptedExactlyWhenAdmitted(s, req);
    SingleEventPlans(s.threadId, s.current, req);
    if req.ReplaceReq? { ReplaceApplies(s.threadId, s.current.value, req.draft, req.actor, req.id, req.now); }
  }

  // ----- the ledger

  /** The events after the last creation: those of the goal now current. */
  function Since(log: seq<GoalEvent>): seq<GoalEvent> {
    if log == [] || log[|log| - 1].kind.Created? then []
    else Since(log[..|log| - 1]) + [log[|log| - 1]]
  }

  function Rounds(events: seq<GoalEvent>): nat {
    if events == [] then 0
    else Rounds(events[..|events| - 1]) + if events[|events| - 1].kind.Round? then 1 else 0
  }

  function Updates(events: seq<GoalEvent>): nat {
    if events == [] then 0
    else Updates(events[..|events| - 1]) + if events[|events| - 1].kind.Updated? then 1 else 0
  }

  function Deltas(events: seq<GoalEvent>): nat {
    if events == [] then 0
    else Deltas(events[..|events| - 1]) + if events[|events| - 1].kind.Round? then events[|events| - 1].kind.tokensDelta else 0
  }

  /** The goal's accounts are those of the events. */
  predicate Balances(own: seq<GoalEvent>, g: ThreadGoal) {
    && g.roundsStarted == Rounds(own)
    && g.revision == 1 + Updates(own)
    && g.tokensUsed == if Deltas(own) > U64_MAX then U64_MAX else Deltas(own)
  }

  predicate Accounted(log: seq<GoalEvent>, current: Option<ThreadGoal>) {
    current.Some? ==> Balances(Since(log), current.value)
  }

  /** One accepted event keeps the ledger, provided an update carries the tokens it found. The bare
      fold does not check that proviso; the bridge's own plans meet it. */
  lemma LedgerStep(log: seq<GoalEvent>, before: Option<ThreadGoal>, e: GoalEvent)
    requires Accounted(log, before) && Apply(before, e).Ok?
    requires e.kind.Updated? ==> before.Some? && e.kind.goal.tokensUsed == before.value.tokensUsed
    ensures Accounted(log + [e], Apply(before, e).value)
  {
    if before.Some? && !e.kind.Created? && Apply(before, e).value.Some? { EventBalances(Since(log), before.value, e); }
  }

  lemma EventBalances(own: seq<GoalEvent>, g: ThreadGoal, e: GoalEvent)
    requires Balances(own, g) && !e.kind.Created? && Apply(Some(g), e).Ok? && Apply(Some(g), e).value.Some?
    requires e.kind.Updated? ==> e.kind.goal.tokensUsed == g.tokensUsed
    ensures Balances(own + [e], Apply(Some(g), e).value.value)
  {
    if e.kind.Round? { assert Apply(Some(g), e).value.value == Charge(g, e.kind.round, e.kind.tokensDelta, e.kind.admittedAt); }
  }

  lemma {:induction false} LedgerBatch(log: seq<GoalEvent>, before: Option<ThreadGoal>, events: seq<GoalEvent>)
    requires Accounted(log, before) && ApplyAll(before, events).Ok?
    requires CarriesTokens(before, events)
    ensures Accounted(log + events, ApplyAll(before, events).value)
    decreases |events|
  {
    if events == [] {
      assert log + events == log;
    } else {
      LedgerStep(log, before, events[0]);
      LedgerBatch(log + [events[0]], Apply(before, events[0]).value, events[1..]);
      assert log + events == log + [events[0]] + events[1..];
    }
  }

  /** Only the head of a batch updates, and then with the tokens it found. */
  predicate CarriesTokens(before: Option<ThreadGoal>, events: seq<GoalEvent>) {
    forall i :: 0 <= i < |events| && events[i].kind.Updated? ==>
      i == 0 && before.Some? && events[i].kind.goal.tokensUsed == before.value.tokensUsed
  }

  lemma PlansCarryTokens(threadId: string, snapshot: Option<ThreadGoal>, req: Request)
    ensures var plan := PlanFor(threadId, snapshot, req);
            plan.Batch? ==> CarriesTokens(snapshot, plan.events)
  {
  }

  // ----- what every state of a run satisfies

  /** The last routed row is the fold cache, which is the strict fold of the accepted events and
      accounts for them. */
  predicate Durable(rows: seq<Option<ThreadGoal>>, log: seq<GoalEvent>, current: Option<ThreadGoal>) {
    && current == (if rows == [] then None else rows[|rows| - 1])
    && Fold(log) == Ok(current)
    && Accounted(log, current)
  }

  predicate ReasonFits(current: Option<ThreadGoal>) {
    current.Some? ==>
      match current.value.status
      case Active => current.value.blockedReason.None?
      case Complete => current.value.blockedReason.None?
      case Blocked => current.value.blockedReason.Some?
      case BudgetLimited => current.value.blockedReason.Some?
      case Paused => true
  }

  predicate ArmedIsActive(s: BridgeState) {
    s.armed ==> s.current.Some? && s.current.value.status.Active?
  }

  predicate Kept(s: BridgeState) {
    && s.stored
    && Durable(s.rows, s.log, s.current)
    && ReasonFits(s.current)
    && ArmedIsActive(s)
  }

  lemma AppendKeeps(s: BridgeState, events: seq<GoalEvent>)
    requires s.stored && Fold(s.log) == Ok(s.current) && Append(s, events).Ok?
    ensures var t := Append(s, events).value;
            Fold(t.log) == Ok(t.current) && t.rows == s.rows + [t.current]
  {
    ApplyAllConcat(None, s.log, events);
  }

  lemma LedgerKept(s: BridgeState, req: Request)
    requires Accounted(s.log, s.current)
    requires PlanFor(s.threadId, s.current, req).Batch?
    ensures var next := Append(s, PlanFor(s.threadId, s.current, req).events);
            next.Ok? ==> Accounted(next.value.log, next.value.current)
  {
    var events := PlanFor(s.threadId, s.current, req).events;
    PlansCarryTokens(s.threadId, s.current, req);
    if Append(s, events).Ok? { LedgerBatch(s.log, s.current, events); }
  }

  lemma ExecKeeps(s: BridgeState, req: Request)
    requires s.stored && Durable(s.rows, s.log, s.current)
    ensures var t := Exec(s, req).state; t.stored && Durable(t.rows, t.log, t.current)
  {
    var plan := PlanFor(s.threadId, s.current, req);
    if plan.Batch? && Append(s, plan.events).Ok? {
      AppendKeeps(s, plan.events);
      LedgerKept(s, req);
    }
  }

  lemma ReasonKept(s: BridgeState, req: Request)
    requires ReasonFits(s.current)
    ensures ReasonFits(Exec(s, req).state.current)
  {
    SingleEventPlans(s.threadId, s.current, req);
    if req.ReplaceReq? && s.current.Some? && CheckDraft(req.draft).Ok? {
      ReplaceApplies(s.threadId, s.current.value, req.draft, req.actor, req.id, req.now);
    }
  }

  lemma ArmedKept(s: BridgeState, req: Request)
    requires ArmedIsActive(s)
    ensures ArmedIsActive(Exec(s, req).state)
  {
    SingleEventPlans(s.threadId, s.current, req);
    if req.ReplaceReq? && s.current.Some? && CheckDraft(req.draft).Ok? {
      ReplaceApplies(s.threadId, s.current.value, req.draft, req.actor, req.id, req.now);
    }
  }

  /** The bridge of the next process just after it took the last row. */
  function Reseeded(s: BridgeState): BridgeState {
    s.(armed := false, roundActive := false)
  }

  lemma RestartReseeds(s: BridgeState, now: int)
    requires s.current == if s.rows == [] then None else s.rows[|s.rows| - 1]
    ensures Restart(s, now) ==
            if s.current.Some? && s.current.value.status.Active?
            then Exec(Reseeded(s), RestartPause(now)).state else Reseeded(s)
  {
    var blank := Fresh(s.threadId, s.stored).(rows := s.rows, log := s.log);
    if s.rows != [] { assert blank.(current := s.rows[|s.rows| - 1]) == Reseeded(s); }
  }

  lemma StepKeeps(s: BridgeState, a: Action)
    requires Kept(s)
    ensures Kept(Step(s, a))
  {
    match a {
      case Do(req) =>
        ExecKeeps(s, req);
        ReasonKept(s, req);
        ArmedKept(s, req);
      case Disarmed =>
      case Restarted(now) =>
        RestartReseeds(s, now);
        ExecKeeps(Reseeded(s), RestartPause(now));
        ReasonKept(Reseeded(s), RestartPause(now));
        ArmedKept(Reseeded(s), RestartPause(now));
    }
  }

  /** Every state a fresh thread's bridge can reach is the strict fold of its accepted events, agrees
      with its last journal row, accounts for exactly the rounds, updates and tokens accepted since
      the last creation, carries a reason exactly where its status asks for one, and is armed only
      over an Active goal. */
  lemma {:induction false} RunKeeps(threadId: string, acts: seq<Action>)
    ensures Kept(Run(Fresh(threadId, true), acts))
  {
    if acts == [] {
    } else {
      RunKeeps(threadId, acts[..|acts| - 1]);
      StepKeeps(Run(Fresh(threadId, true), acts[..|acts| - 1]), acts[|acts| - 1]);
    }
  }

  // ----- restart

  lemma RestartReasonValid()
    ensures ReasonFault(RestartReason).None?
  {
    assert RestartReason.code == "restart" + "-" + "paused";
    TwoWordsAreKebab("restart", "paused");
    Text.TrimNonBlank(RestartReason.message, 0);
  }

  predicate IsActive(current: Option<ThreadGoal>) {
    current.Some? && current.value.status.Active?
  }

  predicate RestartedFrom(s: BridgeState, t: BridgeState, now: int) {
    && !t.armed && !t.roundActive
    && if IsActive(s.current) && s.current.value.updatedAt <= now
       then t.current == Some(Stopped(s.current.value, Paused, BlockReason("restart-paused", "paused after application restart"), now))
            && t.rows == s.rows + [t.current]
       else t.current == s.current && t.rows == s.rows
  }

  /** A restart after any run gives back the same goal, disarmed; an Active goal comes back paused one
      revision later with its definition and accounting untouched, and then no further restart
      changes anything. It stays Active only when the clock reads earlier than its last change. */
  lemma RestartRoundTrip(threadId: string, acts: seq<Action>, now: int, later: int)
    ensures var s := Run(Fresh(threadId, true), acts);
            var t := Restart(s, now);
            && RestartedFrom(s, t, now)
            && (IsActive(t.current) <==> IsActive(s.current) && now < s.current.value.updatedAt)
            && (!IsActive(t.current) ==> Restart(t, later) == t)
  {
    RunKeeps(threadId, acts);
    RestartFrom(Run(Fresh(threadId, true), acts), now, later);
  }

  lemma RestartFrom(s: BridgeState, now: int, later: int)
    requires s.stored && s.current == if s.rows == [] then None else s.rows[|s.rows| - 1]
    ensures var t := Restart(s, now);
            && RestartedFrom(s, t, now)
            && (!IsActive(t.current) ==> Restart(t, later) == t)
  {
    RestartReseeds(s, now);
    RestartReasonValid();
    StopApplies(Reseeded(s), Paused, RestartReason, System, now);
    RestartReseeds(Restart(s, now), later);
  }

  function Stopped(g: ThreadGoal, status: GoalStatus, reason: BlockReason, now: int): ThreadGoal {
    g.(status := status, blockedReason := Some(reason), revision := g.revision + 1, updatedAt := now)
  }

  /** A pause or block with a valid reason stops and disarms an Active goal unless the clock regressed;
      otherwise nothing changes. */
  lemma StopApplies(s: BridgeState, status: GoalStatus, reason: BlockReason, actor: GoalActor, now: int)
    requires (status.Paused? || status.Blocked?) && ReasonFault(reason).None?
    ensures var t := Exec(s, SetStatusReq(status, Some(reason), actor, now)).state;
            if IsActive(s.current) && s.current.value.updatedAt <= now
            then && t.current == Some(Stopped(s.current.value, status, reason, now))
                 && !t.armed && t.roundActive == s.roundActive && t.stored == s.stored
                 && (s.stored ==> t.rows == s.rows + [t.current])
            else t == s
  {
    var req := SetStatusReq(status, Some(reason), actor, now);
    AcceptedExactlyWhenAdmitted(s, req);
    SingleEventPlans(s.threadId, s.current, req);
  }

  /** A seed that lands on a live bridge keeps armed-means-Active exactly when the bridge is disarmed,
      the journal has no goal row, or the seeded goal is itself Active. */
  lemma SeedKeepsArmedExactlyWhen(s: BridgeState, snapshot: Option<Option<ThreadGoal>>, now: int)
    requires ArmedIsActive(s)
    ensures ArmedIsActive(Seed(s, snapshot, now)) <==> !s.armed || snapshot.None? || IsActive(snapshot.value)
  {
    if snapshot.Some? && IsActive(snapshot.value) {
      RestartReasonValid();
      StopApplies(s.(current := snapshot.value), Paused, RestartReason, System, now);
    }
  }

  // ----- lifecycle

  /** No request but create, replace and clear takes a Complete goal out of that state, and none of
      the others touches its identity or accounting. */
  lemma {:induction false} CompleteIsSticky(s: BridgeState, acts: seq<Action>)
    requires Kept(s) && s.current.Some? && s.current.value.status.Complete?
    requires forall i :: 0 <= i < |acts| && acts[i].Do? ==>
               !acts[i].req.CreateReq? && !acts[i].req.ReplaceReq? && !acts[i].req.ClearReq?
    ensures var t := Run(s, acts);
            && Kept(t) && t.current.Some?
            && t.current.value.status.Complete? && t.current.value.blockedReason.None?
            && t.current.value.goalId == s.current.value.goalId
            && t.current.value.roundsStarted == s.current.value.roundsStarted
            && t.current.value.tokensUsed == s.current.value.tokensUsed
    decreases |acts|
  {
    if acts == [] {
    } else {
      var init, a := acts[..|acts| - 1], acts[|acts| - 1];
      CompleteIsSticky(s, init);
      var u := Run(s, init);
      StepKeeps(u, a);
      match a {
        case Do(req) => CompleteStep(u, req);
        case Disarmed =>
        case Restarted(now) => RestartReseeds(u, now);
      }
    }
  }

  lemma CompleteStep(s: BridgeState, req: Request)
    requires s.current.Some? && s.current.value.status.Complete?
    requires !req.CreateReq? && !req.ReplaceReq? && !req.ClearReq?
    ensures var t := Exec(s, req).state;
            && t.current.Some? && t.current.value.status.Complete?
            && t.current.value.goalId == s.current.value.goalId
            && t.current.value.roundsStarted == s.current.value.roundsStarted
            && t.current.value.tokensUsed == s.current.value.tokensUsed
  {
    AcceptedExactlyWhenAdmitted(s, req);
    if req.EditReq? { SingleEventPlans(s.threadId, s.current, req); }
  }

  /** An Active goal has budget left, and no goal has run more rounds than its cap. */
  predicate Headroom(current: Option<ThreadGoal>) {
    current.Some? ==>
      var g := current.value;
      && (g.status.Active? ==> !g.BudgetExhausted())
      && (g.maxRounds.Some? ==> g.roundsStarted <= g.maxRounds.value)
  }

  /** In every run without an edit, an Active goal is under budget and the round cap holds. */
  lemma {:induction false} EditFreeRunsKeepHeadroom(threadId: string, acts: seq<Action>)
    requires forall i :: 0 <= i < |acts| && acts[i].Do? ==> !acts[i].req.EditReq?
    ensures Headroom(Run(Fresh(threadId, true), acts).current)
  {
    if acts == [] {
    } else {
      var init, a := acts[..|acts| - 1], acts[|acts| - 1];
      EditFreeRunsKeepHeadroom(threadId, init);
      RunKeeps(threadId, init);
      var u := Run(Fresh(threadId, true), init);
      match a {
        case Do(req) => HeadroomStep(u, req);
        case Disarmed =>
        case Restarted(now) =>
          RestartReseeds(u, now);
          HeadroomStep(Reseeded(u), RestartPause(now));
      }
    }
  }

  lemma HeadroomStep(s: BridgeState, req: Request)
    requires Headroom(s.current) && !req.EditReq?
    ensures Headroom(Exec(s, req).state.current)
  {
    AcceptedExactlyWhenAdmitted(s, req);
    SingleEventPlans(s.threadId, s.current, req);
    if req.ReplaceReq? && s.current.Some? && CheckDraft(req.draft).Ok? {
      ReplaceApplies(s.threadId, s.current.value, req.draft, req.actor, req.id, req.now);
    }
  }

  /** An accepted edit keeps that headroom exactly when the new cap covers the rounds already run and
      the new budget, if the goal is Active, exceeds the tokens already used. */
  lemma EditKeepsHeadroomExactlyWhen(s: BridgeState, d: Draft, actor: GoalActor, now: int)
    requires Admits(s.current, EditReq(d, actor, now))
    ensures var g := s.current.value;
            Headroom(Exec(s, EditReq(d, actor, now)).state.current) <==>
              && (g.status.Active? && d.tokenBudget.Some? ==> g.tokensUsed < d.tokenBudget.value)
              && (d.maxRounds.Some? ==> g.roundsStarted <= d.maxRounds.value)
  {
    AcceptedExactlyWhenAdmitted(s, EditReq(d, actor, now));
    SingleEventPlans(s.threadId, s.current, EditReq(d, actor, now));
  }

  /** For instance: cutting the cap of a goal that has run two rounds to one round is accepted. */
  lemma EditCanExceedCap(s: BridgeState)
    requires s.current.Some? && s.current.value.roundsStarted >= 2
    ensures var req := EditReq(Draft("x", None, Some(1)), User, s.current.value.updatedAt);
            Exec(s, req).result.Ok? && !Headroom(Exec(s, req).state.current)
  {
    var d := Draft("x", None, Some(1));
    assert Text.Trim("x") == "x";
    AcceptedExactlyWhenAdmitted(s, EditReq(d, User, s.current.value.updatedAt));
    EditKeepsHeadroomExactlyWhen(s, d, User, s.current.value.updatedAt);
  }
}
