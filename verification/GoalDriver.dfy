/** The round driver: the idle gate that reserves one continuation round, and the settle that charges it
    only when its message entered the transcript. */
module GoalDriver {
  import opened Wrappers
  import opened Goal
  import opened GoalService
  import GoalRuns
  import Text

  datatype RoundIdentity = RoundIdentity(goalId: string, revision: nat, round: nat)

  datatype Usage = Usage(inputTokens: nat, cacheCreation: nat, cacheRead: nat, outputTokens: nat)

  datatype RoundDetails = RoundDetails(round: Option<nat>, goalId: Option<string>, revision: Option<nat>)

  datatype Message =
    | Assistant(usage: Usage)
    | ToolResult(toolUsage: Option<Usage>)
    | Custom(customType: string, details: Option<RoundDetails>)
    | Other

  /** The bridge with the two slots the driver owns. */
  datatype Engine = Engine(bridge: BridgeState, reserved: bool, identity: Option<RoundIdentity>)

  // ----- accounting and admission

  /** Budget tokens leave out provider cache reads. */
  function BudgetTokens(u: Usage): nat {
    u.inputTokens + u.cacheCreation + u.outputTokens
  }

  function MessageTokens(m: Message): nat {
    match m
    case Assistant(usage) => BudgetTokens(usage)
    case ToolResult(usage) => if usage.Some? then BudgetTokens(usage.value) else 0
    case _ => 0
  }

  function SumTokens(messages: seq<Message>): nat {
    if messages == [] then 0 else SumTokens(messages[..|messages| - 1]) + MessageTokens(messages[|messages| - 1])
  }

  /** The tokens charged for a run; a failed run charges none. */
  function RunTokens(run: Option<seq<Message>>): nat {
    if run.Some? then SumTokens(run.value) else 0
  }

  /** The two messages differ at most in the cache reads they report. */
  predicate SameButCacheReads(a: Message, b: Message) {
    match (a, b)
    case (Assistant(u), Assistant(v)) => u.(cacheRead := 0) == v.(cacheRead := 0)
    case (ToolResult(Some(u)), ToolResult(Some(v))) => u.(cacheRead := 0) == v.(cacheRead := 0)
    case _ => a == b
  }

  /** The charge of a message taken as a run of its own: what it read fresh, wrote to the cache and put out. */
  lemma ChargeOfOne(m: Message)
    ensures RunTokens(Some([m])) ==
              match m
              case Assistant(u) => u.inputTokens + u.cacheCreation + u.outputTokens
              case ToolResult(Some(u)) => u.inputTokens + u.cacheCreation + u.outputTokens
              case _ => 0
  {
    assert [m][..0] == [];
    assert SumTokens([m]) == SumTokens([m][..0]) + MessageTokens([m][0]);
  }

  /** A run is charged what its parts are, a failed or empty one nothing. */
  lemma {:induction false} ChargeAdds(a: seq<Message>, b: seq<Message>)
    ensures RunTokens(None) == RunTokens(Some([])) == 0
    ensures RunTokens(Some(a + b)) == RunTokens(Some(a)) + RunTokens(Some(b))
    decreases |b|
  {
    if b == [] {
      assert a + b == a;
    } else {
      var all := a + b;
      assert all[..|all| - 1] == a + b[..|b| - 1];
      ChargeAdds(a, b[..|b| - 1]);
    }
  }

  /** Cache reads cost nothing. */
  lemma {:induction false} ChargeIgnoresCacheReads(a: seq<Message>, b: seq<Message>)
    requires |a| == |b| && forall i :: 0 <= i < |a| ==> SameButCacheReads(a[i], b[i])
    ensures RunTokens(Some(a)) == RunTokens(Some(b))
  {
    if a == [] {
    } else {
      var n := |a| - 1;
      ChargeIgnoresCacheReads(a[..n], b[..n]);
      assert SameButCacheReads(a[n], b[n]);
    }
  }

  predicate IsRoundMessage(m: Message, id: RoundIdentity) {
    m == Custom("goal_round", Some(RoundDetails(Some(id.round), Some(id.goalId), Some(id.revision))))
  }

  predicate ContainsRound(transcript: seq<Message>, id: RoundIdentity) {
    exists i :: 0 <= i < |transcript| && IsRoundMessage(transcript[i], id)
  }

  method TranscriptContainsRound(transcript: seq<Message>, id: RoundIdentity) returns (found: bool)
    ensures found <==> ContainsRound(transcript, id)
  {
    for i := 0 to |transcript|
      invariant forall k :: 0 <= k < i ==> !IsRoundMessage(transcript[k], id)
    {
      match transcript[i] {
        case Custom(customType, Some(details)) =>
          if customType == "goal_round" && details.round == Some(id.round)
             && details.goalId == Some(id.goalId) && details.revision == Some(id.revision) {
            return true;
          }
        case _ =>
      }
    }
    return false;
  }

  method SumRunTokens(run: Option<seq<Message>>) returns (total: nat)
    ensures total == RunTokens(run)
  {
    if run.None? { return 0; }
    total := 0;
    for i := 0 to |run.value|
      invariant total == SumTokens(run.value[..i])
    {
      total := total + MessageTokens(run.value[i]);
      assert run.value[..i + 1][..i] == run.value[..i];
    }
    assert run.value[..|run.value|] == run.value;
  }

  // ----- the gate and the settle

  function RoundLimitReason(limit: nat): BlockReason {
    BlockReason("round-limit", "Goal reached its configured limit of " + Text.Decimal(limit) + " rounds.")
  }

  const InterruptReason := BlockReason("round-interrupted", "goal round was interrupted")

  function IdentityOf(g: ThreadGoal): RoundIdentity {
    RoundIdentity(g.goalId, g.revision, g.roundsStarted + 1)
  }

  /** The message that carries a queued round into the transcript. */
  function RoundMessage(g: ThreadGoal): Message {
    Custom("goal_round", Some(RoundDetails(Some(g.roundsStarted + 1), Some(g.goalId), Some(g.revision))))
  }

  /** A round's message is taken for a reserved round exactly when it names the same goal, revision and round;
      no message of another kind or without all three is. */
  lemma MessageNamesItsRound(g: ThreadGoal, id: RoundIdentity, m: Message)
    ensures ContainsRound([RoundMessage(g)], id) <==>
              id.goalId == g.goalId && id.revision == g.revision && id.round == g.roundsStarted + 1
    ensures ContainsRound([m], id) ==>
              && m.Custom? && m.customType == "goal_round" && m.details.Some?
              && m.details.value.round == Some(id.round) && m.details.value.goalId == Some(id.goalId)
              && m.details.value.revision == Some(id.revision)
  {
    assert [RoundMessage(g)][0] == RoundMessage(g);
  }

  /** A transcript holds a round exactly when some part of it does. */
  lemma ContainsRoundAdds(a: seq<Message>, b: seq<Message>, id: RoundIdentity)
    ensures ContainsRound(a + b, id) <==> ContainsRound(a, id) || ContainsRound(b, id)
  {
    assert forall i :: 0 <= i < |a| ==> (a + b)[i] == a[i];
    assert forall i :: 0 <= i < |b| ==> (a + b)[|a| + i] == b[i];
  }

  predicate GateOpen(e: Engine) {
    !e.reserved && e.bridge.current.Some? && e.bridge.current.value.status.Active? && e.bridge.armed
  }

  predicate Queues(e: Engine, competing: bool) {
    GateOpen(e) && !e.bridge.current.value.RoundsExhausted() && !competing
  }

  function MaybeQueue(e: Engine, competing: bool, now: int): Engine {
    if !GateOpen(e) then e else
    var g := e.bridge.current.value;
    if g.RoundsExhausted() then
      e.(bridge := Exec(e.bridge, SetStatusReq(Blocked, Some(RoundLimitReason(g.maxRounds.value)), System, now)).state)
    else if competing then e
    else Engine(e.bridge.(roundActive := true), true, Some(IdentityOf(g)))
  }

  function AccountFor(id: RoundIdentity, tokens: nat, now: int): Request {
    AccountReq(id.round, id.revision, id.goalId, tokens, now)
  }

  /** The bridge after the round's charge and, on abort, the durable pause. */
  function Admit(b: BridgeState, id: RoundIdentity, tokens: nat, abort: bool, now: int, pauseNow: int): BridgeState {
    var charged := Exec(b, AccountFor(id, tokens, now));
    var b1 := if charged.result.Err? then b.(armed := false) else charged.state;
    if abort then Exec(b1, SetStatusReq(Paused, Some(InterruptReason), System, pauseNow)).state else b1
  }

  function Settle(e: Engine, transcript: seq<Message>, run: Option<seq<Message>>, abort: bool, now: int, pauseNow: int): Engine {
    if e.identity.None? then e else
    var b := if ContainsRound(transcript, e.identity.value)
             then Admit(e.bridge, e.identity.value, RunTokens(run), abort, now, pauseNow)
             else e.bridge.(armed := false);
    Engine(b.(roundActive := false), false, None)
  }

  /** What follows every run: an abort or an error disarms first, then a round in flight settles. */
  function Housekeep(e: Engine, transcript: seq<Message>, run: Option<seq<Message>>, abort: bool, now: int, pauseNow: int): Engine {
    var e1 := if abort || run.None? then e.(bridge := e.bridge.(armed := false)) else e;
    if e1.bridge.roundActive then Settle(e1, transcript, run, abort, now, pauseNow) else e1
  }

  /** The driver's mutable half. */
  class RoundDriver {
    const bridge: GoalBridge
    var reserved: bool
    var identity: Option<RoundIdentity>

    ghost function State(): Engine
      reads this, bridge
    {
      Engine(bridge.State(), reserved, identity)
    }

    constructor (bridge: GoalBridge)
      ensures this.bridge == bridge && State() == Engine(bridge.State(), false, None)
    {
      this.bridge := bridge;
      reserved, identity := false, None;
    }

    /** The message of the queued round, if the gate queues one. */
    method MaybeQueueGoalRound(competing: bool, now: int) returns (queued: Option<Message>)
      modifies this, bridge
      ensures State() == MaybeQueue(old(State()), competing, now)
      ensures queued.Some? <==> Queues(old(State()), competing)
      ensures queued.Some? ==> queued.value == RoundMessage(old(State()).bridge.current.value)
    {
      if reserved { return None; }
      if bridge.current.None? { return None; }
      var goal := bridge.current.value;
      if !goal.status.Active? || !bridge.armed { return None; }
      if goal.maxRounds.Some? && goal.roundsStarted >= goal.maxRounds.value {
        var _ := bridge.SetStatus(Blocked, Some(RoundLimitReason(goal.maxRounds.value)), System, now);
        return None;
      }
      if competing { return None; }
      reserved := true;
      identity := Some(RoundIdentity(goal.goalId, goal.revision, goal.roundsStarted + 1));
      bridge.MarkGoalRoundActive(true);
      return Some(Custom("goal_round", Some(RoundDetails(Some(goal.roundsStarted + 1), Some(goal.goalId), Some(goal.revision)))));
    }

    method SettleGoalRound(transcript: seq<Message>, run: Option<seq<Message>>, abort: bool, now: int, pauseNow: int)
      modifies this, bridge
      ensures State() == Settle(old(State()), transcript, run, abort, now, pauseNow)
    {
      if identity.None? { return; }
      var id := identity.value;
      identity := None;
      var admitted := TranscriptContainsRound(transcript, id);
      if admitted {
        var tokens := SumRunTokens(run);
        var charged := bridge.AccountRound(id.round, id.revision, id.goalId, tokens, now);
        if charged.Err? { bridge.Disarm(); }
        if abort {
          var _ := bridge.SetStatus(Paused, Some(InterruptReason), System, pauseNow);
        }
      } else {
        bridge.Disarm();
      }
      reserved := false;
      bridge.MarkGoalRoundActive(false);
    }

    method GoalHousekeeping(transcript: seq<Message>, run: Option<seq<Message>>, abort: bool, now: int, pauseNow: int)
      modifies this, bridge
      ensures State() == Housekeep(old(State()), transcript, run, abort, now, pauseNow)
    {
      if abort || run.None? { bridge.Disarm(); }
      if bridge.roundActive { SettleGoalRound(transcript, run, abort, now, pauseNow); }
    }
  }
}
