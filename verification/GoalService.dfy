/** The single writer of one thread's goal: it validates every mutation against the fold, routes one
    full-state journal row per accepted batch, and holds the process-local continuation authority.
    Clock readings and fresh goal ids are parameters of each request. */
module GoalService {
  import opened Wrappers
  import opened Goal
  import Text

  /** `current` is the fold cache and `rows` the routed journal rows, `None` being the null snapshot.
      `log` records the accepted events; the program keeps no such list. */
  datatype BridgeState = BridgeState(
    threadId: string,
    stored: bool,
    current: Option<ThreadGoal>,
    armed: bool,
    roundActive: bool,
    rows: seq<Option<ThreadGoal>>,
    log: seq<GoalEvent>)

  datatype Draft = Draft(objective: string, tokenBudget: Option<nat>, maxRounds: Option<nat>)

  datatype Request =
    | CreateReq(draft: Draft, actor: GoalActor, id: string, now: int)
    | EditReq(draft: Draft, actor: GoalActor, now: int)
    | ReplaceReq(draft: Draft, actor: GoalActor, id: string, now: int)
    | SetStatusReq(status: GoalStatus, reason: Option<BlockReason>, actor: GoalActor, now: int)
    | ClearReq(actor: GoalActor, now: int)
    | AccountReq(round: nat, revision: nat, goalId: string, tokensDelta: nat, now: int)
    | ModelReq(status: GoalStatus, message: Option<string>, now: int)

  /** What a request makes of the snapshot it read: a refusal, nothing to do, or a batch to append. */
  datatype Plan = Refuse(error: GoalError) | Nothing | Batch(events: seq<GoalEvent>)

  datatype Outcome = Outcome(state: BridgeState, result: Result<Option<ThreadGoal>, GoalError>)

  function Event(kind: GoalEventKind): GoalEvent {
    GoalEvent(GOAL_EVENT_VERSION, kind)
  }

  /** A draft whose fields pass validation, with its objective trimmed. */
  function CheckDraft(d: Draft): Result<Draft, GoalError> {
    var objective := ValidateObjective(d.objective);
    if objective.Err? then Err(objective.error)
    else if d.tokenBudget == Some(0) then Err(ZeroBudget)
    else if d.maxRounds == Some(0) then Err(ZeroRounds)
    else Ok(d.(objective := objective.value))
  }

  function NewGoal(threadId: string, d: Draft, id: string, now: int): Result<ThreadGoal, GoalError> {
    var checked := CheckDraft(d);
    if checked.Err? then Err(checked.error)
    else Ok(ThreadGoal(threadId, id, checked.value.objective, Active, d.tokenBudget, 0, d.maxRounds, 0, 1, None, now, now))
  }

  function PlanCreate(threadId: string, snapshot: Option<ThreadGoal>, d: Draft, actor: GoalActor, id: string, now: int): Plan {
    if snapshot.Some? && !snapshot.value.status.IsTerminal() then Refuse(UnfinishedGoalExists) else
    var goal := NewGoal(threadId, d, id, now);
    if goal.Err? then Refuse(goal.error) else Batch([Event(Created(actor, goal.value, now))])
  }

  function PlanEdit(snapshot: Option<ThreadGoal>, d: Draft, actor: GoalActor, now: int): Plan {
    if snapshot.None? then Refuse(NoGoal) else
    var checked := CheckDraft(d);
    if checked.Err? then Refuse(checked.error) else
    var g := snapshot.value;
    var goal := g.(objective := checked.value.objective, tokenBudget := d.tokenBudget, maxRounds := d.maxRounds,
                   revision := g.revision + 1, updatedAt := now);
    Batch([Event(Updated(actor, EditOp, goal, now))])
  }

  function PlanReplace(threadId: string, snapshot: Option<ThreadGoal>, d: Draft, actor: GoalActor, id: string, now: int): Plan {
    if snapshot.None? then Refuse(NoGoal) else
    var goal := NewGoal(threadId, d, id, now);
    if goal.Err? then Refuse(goal.error) else
    var g := snapshot.value;
    Batch([Event(Cleared(actor, g.goalId, g.revision + 1, now)), Event(Created(actor, goal.value, now))])
  }

  function OperationFor(status: GoalStatus): Option<GoalOperation> {
    match status
    case Paused => Some(PauseOp)
    case Active => Some(ResumeOp)
    case Complete => Some(CompleteOp)
    case Blocked => Some(BlockOp)
    case BudgetLimited => None
  }

  function PlanSetStatus(snapshot: Option<ThreadGoal>, status: GoalStatus, reason: Option<BlockReason>, actor: GoalActor, now: int): Plan {
    if snapshot.None? then Refuse(NoGoal) else
    var g := snapshot.value;
    if !g.status.CanTransitionTo(status) then Refuse(BadTransition)
    else if status.Active? && g.ResumeRefusal().Some? then Refuse(g.ResumeRefusal().value)
    else if OperationFor(status).None? then Refuse(BudgetLimitedNotSettable)
    else if reason.Some? && ReasonFault(reason.value).Some? then Refuse(ReasonFault(reason.value).value)
    else
      var goal := g.(status := status,
                     blockedReason := if status.Paused? || status.Blocked? then reason else None,
                     revision := g.revision + 1, updatedAt := now);
      Batch([Event(Updated(actor, OperationFor(status).value, goal, now))])
  }

  function PlanClear(snapshot: Option<ThreadGoal>, actor: GoalActor, now: int): Plan {
    if snapshot.None? then Nothing
    else Batch([Event(Cleared(actor, snapshot.value.goalId, snapshot.value.revision + 1, now))])
  }

  function ModelReason(message: Option<string>): BlockReason {
    BlockReason("model-reported", if message.Some? then message.value else "")
  }

  function PlanModel(snapshot: Option<ThreadGoal>, status: GoalStatus, message: Option<string>, now: int): Plan {
    match status
    case Complete => PlanSetStatus(snapshot, Complete, None, Model, now)
    case Blocked =>
      if snapshot.None? then Refuse(NoGoal)
      else if snapshot.value.roundsStarted < BLOCKED_MIN_GOAL_ROUNDS then Refuse(TooFewRoundsToBlock)
      else PlanSetStatus(snapshot, Blocked, Some(ModelReason(message)), Model, now)
    case _ => Refuse(NotReportable)
  }

  function PlanFor(threadId: string, snapshot: Option<ThreadGoal>, req: Request): Plan {
    match req
    case CreateReq(d, actor, id, now) => PlanCreate(threadId, snapshot, d, actor, id, now)
    case EditReq(d, actor, now) => PlanEdit(snapshot, d, actor, now)
    case ReplaceReq(d, actor, id, now) => PlanReplace(threadId, snapshot, d, actor, id, now)
    case SetStatusReq(status, reason, actor, now) => PlanSetStatus(snapshot, status, reason, actor, now)
    case ClearReq(actor, now) => PlanClear(snapshot, actor, now)
    case AccountReq(round, revision, goalId, delta, now) =>
      Batch([Event(Round(goalId, revision, round, delta, now))])
    case ModelReq(status, message, now) => PlanModel(snapshot, status, message, now)
  }

  /** One lock-held validation of a whole batch, then one journal row. */
  function Append(s: BridgeState, events: seq<GoalEvent>): Result<BridgeState, GoalError> {
    var next := ApplyAll(s.current, events);
    if next.Err? then Err(next.error)
    else Ok(s.(current := next.value,
               rows := if s.stored then s.rows + [next.value] else s.rows,
               log := s.log + events))
  }

  /** The continuation authority after an accepted request. */
  function ArmedAfter(req: Request, armed: bool, current: Option<ThreadGoal>): bool {
    match req
    case CreateReq(_, _, _, _) => true
    case EditReq(_, _, _) => armed
    case ReplaceReq(_, _, _, _) => true
    case SetStatusReq(status, _, _, _) => status.Active?
    case ClearReq(_, _) => false
    case AccountReq(_, _, _, _, _) => armed && current.Some? && current.value.status.Active?
    case ModelReq(_, _, _) => false
  }

  /** Carry out a plan made from a snapshot read earlier. */
  function Finish(s: BridgeState, req: Request, plan: Plan): Outcome {
    match plan
    case Refuse(e) => Outcome(s, Err(e))
    case Nothing => Outcome(s, Ok(s.current))
    case Batch(events) =>
      var next := Append(s, events);
      if next.Err? then Outcome(s, Err(next.error))
      else Outcome(next.value.(armed := ArmedAfter(req, s.armed, next.value.current)), Ok(next.value.current))
  }

  function Exec(s: BridgeState, req: Request): Outcome {
    Finish(s, req, PlanFor(s.threadId, s.current, req))
  }

  const RestartReason := BlockReason("restart-paused", "paused after application restart")

  function RestartPause(now: int): Request {
    SetStatusReq(Paused, Some(RestartReason), System, now)
  }

  /** `seed_from_journal`: no row leaves the fold; a row replaces it wholesale, and an Active one is
      demoted through the ordinary mutation path. */
  function Seed(s: BridgeState, snapshot: Option<Option<ThreadGoal>>, now: int): BridgeState {
    if snapshot.None? then s else
    var seeded := s.(current := snapshot.value);
    if seeded.current.Some? && seeded.current.value.status.Active?
    then Exec(seeded, RestartPause(now)).state
    else seeded
  }

  function Fresh(threadId: string, stored: bool): BridgeState {
    BridgeState(threadId, stored, None, false, false, [], [])
  }

  /** The replayed goal field of a journal: its last row. */
  function LastRow(rows: seq<Option<ThreadGoal>>): Option<Option<ThreadGoal>> {
    if rows == [] then None else Some(rows[|rows| - 1])
  }

  /** A new process: a fresh bridge over the same journal, seeded from its replay. */
  function Restart(s: BridgeState, now: int): BridgeState {
    Seed(Fresh(s.threadId, s.stored).(rows := s.rows, log := s.log), LastRow(s.rows), now)
  }

  // ----- the bridge object

  class GoalBridge {
    const threadId: string
    const stored: bool
    var current: Option<ThreadGoal>
    var armed: bool
    var roundActive: bool
    var rows: seq<Option<ThreadGoal>>
    ghost var log: seq<GoalEvent>

    ghost function State(): BridgeState
      reads this
    {
      BridgeState(threadId, stored, current, armed, roundActive, rows, log)
    }

    /** A bridge over a thread's journal, holding no goal and no authority. */
    constructor (threadId: string, stored: bool, journal: seq<Option<ThreadGoal>>, ghost history: seq<GoalEvent>)
      ensures State() == Fresh(threadId, stored).(rows := journal, log := history)
    {
      this.threadId, this.stored := threadId, stored;
      current, armed, roundActive, rows := None, false, false, journal;
      log := history;
    }

    method Disarm()
      modifies this
      ensures State() == old(State()).(armed := false)
    {
      armed := false;
    }

    method MarkGoalRoundActive(active: bool)
      modifies this
      ensures State() == old(State()).(roundActive := active)
    {
      roundActive := active;
    }

    /** Validate a batch against the fold cache, then install and route the result; a refused batch
        leaves everything as it was. */
    method AppendEvents(events: seq<GoalEvent>) returns (r: Result<Option<ThreadGoal>, GoalError>)
      modifies this
      ensures Append(old(State()), events).Err? ==> r == Err(Append(old(State()), events).error) && State() == old(State())
      ensures Append(old(State()), events).Ok? ==> State() == Append(old(State()), events).value && r == Ok(current)
    {
      var state := current;
      for i := 0 to |events|
        invariant ApplyAll(current, events[..i]) == Ok(state)
        invariant State() == old(State())
      {
        var next := Apply(state, events[i]);
        assert events[..i + 1] == events[..i] + [events[i]];
        ApplyAllConcat(current, events[..i], [events[i]]);
        if next.Err? {
          assert events == events[..i + 1] + events[i + 1..];
          ApplyAllConcat(current, events[..i + 1], events[i + 1..]);
          return Err(next.error);
        }
        state := next.value;
      }
      assert events[..|events|] == events;
      current := state;
      if stored { rows := rows + [current]; }
      log := log + events;
      return Ok(current);
    }

    method Create(d: Draft, actor: GoalActor, id: string, now: int) returns (r: Result<Option<ThreadGoal>, GoalError>)
      modifies this
      ensures Outcome(State(), r) == Exec(old(State()), CreateReq(d, actor, id, now))
    {
      if current.Some? && !current.value.status.IsTerminal() { return Err(UnfinishedGoalExists); }
      var goal := NewGoal(threadId, d, id, now);
      if goal.Err? { return Err(goal.error); }
      r := AppendEvents([Event(Created(actor, goal.value, now))]);
      if r.Ok? { armed := true; }
    }

    method Edit(d: Draft, actor: GoalActor, now: int) returns (r: Result<Option<ThreadGoal>, GoalError>)
      modifies this
      ensures Outcome(State(), r) == Exec(old(State()), EditReq(d, actor, now))
    {
      if current.None? { return Err(NoGoal); }
      var goal := current.value;
      var checked := CheckDraft(d);
      if checked.Err? { return Err(checked.error); }
      goal := goal.(objective := checked.value.objective, tokenBudget := d.tokenBudget, maxRounds := d.maxRounds,
                    revision := goal.revision + 1, updatedAt := now);
      var events := [Event(Updated(actor, EditOp, goal, now))];
      assert PlanFor(threadId, current, EditReq(d, actor, now)) == Batch(events);
      r := AppendEvents(events);
    }

    method Replace(d: Draft, actor: GoalActor, id: string, now: int) returns (r: Result<Option<ThreadGoal>, GoalError>)
      modifies this
      ensures Outcome(State(), r) == Exec(old(State()), ReplaceReq(d, actor, id, now))
    {
      if current.None? { return Err(NoGoal); }
      var replacement := NewGoal(threadId, d, id, now);
      if replacement.Err? { return Err(replacement.error); }
      var cleared := Event(Cleared(actor, current.value.goalId, current.value.revision + 1, now));
      var created := Event(Created(actor, replacement.value, now));
      r := AppendEvents([cleared, created]);
      if r.Ok? { armed := true; }
    }

    method SetStatus(status: GoalStatus, reason: Option<BlockReason>, actor: GoalActor, now: int)
      returns (r: Result<Option<ThreadGoal>, GoalError>)
      modifies this
      ensures Outcome(State(), r) == Exec(old(State()), SetStatusReq(status, reason, actor, now))
    {
      if current.None? { return Err(NoGoal); }
      var goal := current.value;
      if !goal.status.CanTransitionTo(status) { return Err(BadTransition); }
      if status.Active? && goal.ResumeRefusal().Some? { return Err(goal.ResumeRefusal().value); }
      var operation := OperationFor(status);
      if operation.None? { return Err(BudgetLimitedNotSettable); }
      if reason.Some? && ReasonFault(reason.value).Some? { return Err(ReasonFault(reason.value).value); }
      goal := goal.(status := status,
                    blockedReason := if status.Paused? || status.Blocked? then reason else None,
                    revision := goal.revision + 1, updatedAt := now);
      var events := [Event(Updated(actor, operation.value, goal, now))];
      assert PlanFor(threadId, current, SetStatusReq(status, reason, actor, now)) == Batch(events);
      r := AppendEvents(events);
      if r.Ok? { armed := status.Active?; }
    }

    method Clear(actor: GoalActor, now: int) returns (r: Result<Option<ThreadGoal>, GoalError>)
      modifies this
      ensures Outcome(State(), r) == Exec(old(State()), ClearReq(actor, now))
    {
      if current.None? { return Ok(None); }
      r := AppendEvents([Event(Cleared(actor, current.value.goalId, current.value.revision + 1, now))]);
      if r.Ok? { armed := false; }
    }

    method AccountRound(round: nat, revision: nat, goalId: string, tokensDelta: nat, now: int)
      returns (r: Result<Option<ThreadGoal>, GoalError>)
      modifies this
      ensures Outcome(State(), r) == Exec(old(State()), AccountReq(round, revision, goalId, tokensDelta, now))
    {
      r := AppendEvents([Event(Round(goalId, revision, round, tokensDelta, now))]);
      if r.Ok? && (current.None? || !current.value.status.Active?) { armed := false; }
    }

    method ModelUpdate(status: GoalStatus, message: Option<string>, now: int)
      returns (r: Result<Option<ThreadGoal>, GoalError>)
      modifies this
      ensures Outcome(State(), r) == Exec(old(State()), ModelReq(status, message, now))
    {
      match status {
        case Complete =>
          r := SetStatus(Complete, None, Model, now);
        case Blocked =>
          if current.None? { return Err(NoGoal); }
          if current.value.roundsStarted < BLOCKED_MIN_GOAL_ROUNDS { return Err(TooFewRoundsToBlock); }
          r := SetStatus(Blocked, Some(ModelReason(message)), Model, now);
        case _ =>
          r := Err(NotReportable);
      }
    }

    method SeedFromJournal(snapshot: Option<Option<ThreadGoal>>, now: int)
      modifies this
      ensures State() == Seed(old(State()), snapshot, now)
    {
      if snapshot.None? { return; }
      current := snapshot.value;
      if current.Some? && current.value.status.Active? {
        var _ := SetStatus(Paused, Some(RestartReason), System, now);
      }
    }
  }
}
