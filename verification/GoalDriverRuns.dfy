/** What every run of the driver keeps, and why automatic continuation is bounded. */
module GoalDriverRuns {
  import opened Wrappers
  import opened Goal
  import opened GoalService
  import opened GoalRuns
  import opened GoalDriver
  import Text

  datatype DriverAction =
    | Queue(competing: bool, now: int)
    | Settled(transcript: seq<Message>, run: Option<seq<Message>>, abort: bool, now: int, pauseNow: int)
    | Housekept(transcript: seq<Message>, run: Option<seq<Message>>, abort: bool, now: int, pauseNow: int)
    | Bridge(act: Action)

  function Drive(e: Engine, a: DriverAction): Engine {
    match a
    case Queue(competing, now) => MaybeQueue(e, competing, now)
    case Settled(transcript, run, abort, now, pauseNow) => Settle(e, transcript, run, abort, now, pauseNow)
    case Housekept(transcript, run, abort, now, pauseNow) => Housekeep(e, transcript, run, abort, now, pauseNow)
    case Bridge(act) =>
      if act.Restarted? then Engine(Step(e.bridge, act), false, None) else e.(bridge := Step(e.bridge, act))
  }

  function DriveAll(e: Engine, acts: seq<DriverAction>): Engine {
    if acts == [] then e else Drive(DriveAll(e, acts[..|acts| - 1]), acts[|acts| - 1])
  }

  function FreshEngine(threadId: string): Engine {
    Engine(Fresh(threadId, true), false, None)
  }

  // ----- effects of the driver's own requests

  lemma InterruptReasonValid()
    ensures ReasonFault(InterruptReason).None?
  {
    assert InterruptReason.code == "round" + "-" + "interrupted";
    TwoWordsAreKebab("round", "interrupted");
    Text.TrimNonBlank(InterruptReason.message, 0);
  }

  lemma RoundLimitReasonValid(limit: nat)
    ensures ReasonFault(RoundLimitReason(limit)).None?
  {
    assert RoundLimitReason(limit).code == "round" + "-" + "limit";
    TwoWordsAreKebab("round", "limit");
    var message := RoundLimitReason(limit).message;
    assert message[0] == 'G';
    Text.TrimNonBlank(message, 0);
  }

  lemma AccountApplies(b: BridgeState, id: RoundIdentity, tokens: nat, now: int)
    ensures var req := AccountFor(id, tokens, now);
            var r := Exec(b, req);
            if Admits(b.current, req)
            then && r.result.Ok? && r.state.current == Some(Charge(b.current.value, id.round, tokens, now))
                 && r.state.armed == (b.armed && IsActive(r.state.current))
                 && r.state.roundActive == b.roundActive
            else r.result.Err? && r.state == b
  {
    AcceptedExactlyWhenAdmitted(b, AccountFor(id, tokens, now));
    SingleEventPlans(b.threadId, b.current, AccountFor(id, tokens, now));
  }

  /** Whether a settle will charge the round it finds reserved. */
  predicate Charges(e: Engine, transcript: seq<Message>) {
    && e.identity.Some?
    && ContainsRound(transcript, e.identity.value)
    && Admits(e.bridge.current, AccountFor(e.identity.value, 0, 0))
  }

  predicate SameAccounts(a: Option<ThreadGoal>, b: Option<ThreadGoal>) {
    && a.Some? == b.Some?
    && (a.Some? ==> a.value.goalId == b.value.goalId && a.value.roundsStarted == b.value.roundsStarted
                    && a.value.tokensUsed == b.value.tokensUsed && a.value.SameDefinition(b.value))
  }

  lemma AdmitEffect(b: BridgeState, id: RoundIdentity, tokens: nat, abort: bool, now: int, pauseNow: int)
    ensures var t := Admit(b, id, tokens, abort, now, pauseNow);
            if Admits(b.current, AccountFor(id, tokens, now))
            then && var charged := Charge(b.current.value, id.round, tokens, now);
                 && SameAccounts(Some(charged), t.current)
                 && (t.armed <==> b.armed && charged.status.Active? && (abort ==> pauseNow < now))
            else !t.armed && SameAccounts(b.current, t.current)
  {
    AccountApplies(b, id, tokens, now);
    InterruptReasonValid();
    var r := Exec(b, AccountFor(id, tokens, now));
    var b1 := if r.result.Err? then b.(armed := false) else r.state;
    StopApplies(b1, Paused, InterruptReason, System, pauseNow);
  }

  /** A queued round is reserved under the goal's own id and revision as its next round, and as long as
      nothing else touches the bridge its settle charges it exactly when its message was admitted. */
  lemma QueuedRoundIsChargeable(e: Engine, competing: bool, now: int, transcript: seq<Message>)
    requires Queues(e, competing)
    ensures var q := MaybeQueue(e, competing, now);
            && q.reserved && q.bridge.roundActive && q.identity.Some? && q.bridge.current == e.bridge.current
            && q.identity.value.goalId == e.bridge.current.value.goalId
            && q.identity.value.revision == e.bridge.current.value.revision
            && q.identity.value.round == e.bridge.current.value.roundsStarted + 1
            && (Charges(q, transcript) <==> ContainsRound(transcript, q.identity.value))
            && ContainsRound([RoundMessage(e.bridge.current.value)], q.identity.value)
            && !Queues(q, competing)
  {
    MessageNamesItsRound(e.bridge.current.value, IdentityOf(e.bridge.current.value), Other);
  }

  /** A round is queued exactly when none is reserved, the authority is armed, the goal is Active and below its
      round cap, and no other input competes; otherwise the slot stays as it is. */
  lemma RoundQueuedExactlyWhen(e: Engine, competing: bool, now: int)
    ensures var q := MaybeQueue(e, competing, now);
            var queued := !e.reserved && e.bridge.armed && !competing && e.bridge.current.Some?
                          && e.bridge.current.value.status == Active
                          && (e.bridge.current.value.maxRounds.None?
                              || e.bridge.current.value.roundsStarted < e.bridge.current.value.maxRounds.value);
            && Queues(e, competing) == queued
            && (queued ==> q.reserved && q.identity.Some? && q.bridge == e.bridge.(roundActive := true))
            && (!queued ==> q.reserved == e.reserved && q.identity == e.identity && q.bridge.roundActive == e.bridge.roundActive)
  {
  }

  /** A settle frees the slot. It charges exactly the reserved round, once, with exactly the run's
      budget tokens, or it leaves the accounting alone and disarms. */
  lemma SettleChargesOnceOrDisarms(e: Engine, transcript: seq<Message>, run: Option<seq<Message>>, abort: bool, now: int, pauseNow: int)
    ensures var t := Settle(e, transcript, run, abort, now, pauseNow);
            && (e.identity.None? ==> t == e)
            && (e.identity.Some? ==> !t.reserved && t.identity.None? && !t.bridge.roundActive)
            && (Charges(e, transcript) ==>
                  && t.bridge.current.Some?
                  && var g, h := e.bridge.current.value, t.bridge.current.value;
                  && h.goalId == g.goalId == e.identity.value.goalId
                  && h.roundsStarted == g.roundsStarted + 1 == e.identity.value.round
                  && h.tokensUsed == SaturatingAdd(g.tokensUsed, RunTokens(run))
                  && h.SameDefinition(g))
            && (e.identity.Some? && !Charges(e, transcript) ==>
                  !t.bridge.armed && SameAccounts(e.bridge.current, t.bridge.current))
  {
    if e.identity.Some? {
      AdmitEffect(e.bridge, e.identity.value, RunTokens(run), abort, now, pauseNow);
    }
  }

  /** An aborted settle of a reserved round leaves the authority armed exactly when it charged an armed
      goal that stayed under budget and the clock then ran backwards before the pause. */
  lemma AbortedSettleDisarmsExactlyWhen(e: Engine, transcript: seq<Message>, run: Option<seq<Message>>, now: int, pauseNow: int)
    requires e.identity.Some?
    ensures var t := Settle(e, transcript, run, true, now, pauseNow);
            t.bridge.armed <==>
              && e.bridge.armed && Charges(e, transcript) && pauseNow < now
              && var g := e.bridge.current.value;
                 (g.tokenBudget.Some? ==> SaturatingAdd(g.tokensUsed, RunTokens(run)) < g.tokenBudget.value)
  {
    AdmitEffect(e.bridge, e.identity.value, RunTokens(run), true, now, pauseNow);
  }

  /** An aborted round that was charged, of a goal that is still Active, is paused with a reason that says so,
      unless the clock ran backwards. */
  lemma AbortPausesTheGoal(e: Engine, transcript: seq<Message>, run: Option<seq<Message>>, now: int, pauseNow: int)
    requires Charges(e, transcript) && now <= pauseNow
    requires IsActive(Some(Charge(e.bridge.current.value, e.identity.value.round, RunTokens(run), now)))
    ensures Settle(e, transcript, run, true, now, pauseNow).bridge.current ==
              Some(Stopped(Charge(e.bridge.current.value, e.identity.value.round, RunTokens(run), now), Paused,
                           BlockReason("round-interrupted", "goal round was interrupted"), pauseNow))
  {
    var id := e.identity.value;
    AccountApplies(e.bridge, id, RunTokens(run), now);
    InterruptReasonValid();
    StopApplies(Exec(e.bridge, AccountFor(id, RunTokens(run), now)).state, Paused, InterruptReason, System, pauseNow);
  }

  /** Through the housekeeping that follows every run, an abort or a failed run always ends disarmed,
      whatever the clock does. */
  lemma InterruptedRunEndsDisarmed(e: Engine, transcript: seq<Message>, run: Option<seq<Message>>, abort: bool, now: int, pauseNow: int)
    requires abort || run.None?
    ensures !Housekeep(e, transcript, run, abort, now, pauseNow).bridge.armed
  {
    if e.bridge.roundActive && e.identity.Some? {
      AdmitEffect(e.bridge.(armed := false), e.identity.value, RunTokens(run), abort, now, pauseNow);
    }
  }

  /** Housekeeping settles the round in flight, if there is one: it frees the slot, and when nothing interrupted
      the run it charges as a settle does; with no round in flight it settles nothing. */
  lemma HousekeepingSettlesTheRound(e: Engine, transcript: seq<Message>, run: Option<seq<Message>>, abort: bool, now: int, pauseNow: int)
    requires Consistent(e)
    ensures var t := Housekeep(e, transcript, run, abort, now, pauseNow);
            && !t.reserved && t.identity.None? && !t.bridge.roundActive
            && (!abort && run.Some? ==> t == Settle(e, transcript, run, abort, now, pauseNow))
            && (!Charges(e, transcript) ==> SameAccounts(e.bridge.current, t.bridge.current))
            && (Charges(e, transcript) ==>
                  && t.bridge.current.Some?
                  && t.bridge.current.value.roundsStarted == e.bridge.current.value.roundsStarted + 1
                  && t.bridge.current.value.tokensUsed == SaturatingAdd(e.bridge.current.value.tokensUsed, RunTokens(run)))
  {
    var e1 := if abort || run.None? then e.(bridge := e.bridge.(armed := false)) else e;
    SettleChargesOnceOrDisarms(e1, transcript, run, abort, now, pauseNow);
  }

  // ----- safety of every run

  /** The reserved flag, the stored identity and the round-in-flight flag agree, and only an Active
      goal is armed. */
  predicate Consistent(e: Engine) {
    && (e.reserved <==> e.identity.Some?)
    && (e.reserved <==> e.bridge.roundActive)
    && ArmedIsActive(e.bridge)
  }

  lemma SettleConsistent(e: Engine, transcript: seq<Message>, run: Option<seq<Message>>, abort: bool, now: int, pauseNow: int)
    requires Consistent(e)
    ensures Consistent(Settle(e, transcript, run, abort, now, pauseNow))
  {
    if e.identity.Some? {
      var id := e.identity.value;
      ArmedKept(e.bridge, AccountFor(id, RunTokens(run), now));
      var r := Exec(e.bridge, AccountFor(id, RunTokens(run), now));
      var b1 := if r.result.Err? then e.bridge.(armed := false) else r.state;
      ArmedKept(b1, SetStatusReq(Paused, Some(InterruptReason), System, pauseNow));
    }
  }

  lemma KeepsRoundFlag(b: BridgeState, req: Request)
    ensures Exec(b, req).state.roundActive == b.roundActive
  {
  }

  /** A new process starts disarmed and with no round in flight. */
  lemma RestartDisarms(b: BridgeState, now: int)
    ensures !Restart(b, now).armed && !Restart(b, now).roundActive
  {
    var row := LastRow(b.rows);
    if row.Some? && IsActive(row.value) {
      RestartReasonValid();
      StopApplies(Fresh(b.threadId, b.stored).(rows := b.rows, log := b.log, current := row.value), Paused, RestartReason, System, now);
    }
  }

  lemma DriveConsistent(e: Engine, a: DriverAction)
    requires Consistent(e)
    ensures Consistent(Drive(e, a))
  {
    match a {
      case Queue(competing, now) =>
        if GateOpen(e) && e.bridge.current.value.RoundsExhausted() {
          var limit := e.bridge.current.value.maxRounds.value;
          RoundLimitReasonValid(limit);
          StopApplies(e.bridge, Blocked, RoundLimitReason(limit), System, now);
        }
      case Settled(transcript, run, abort, now, pauseNow) => SettleConsistent(e, transcript, run, abort, now, pauseNow);
      case Housekept(transcript, run, abort, now, pauseNow) =>
        SettleConsistent(if abort || run.None? then e.(bridge := e.bridge.(armed := false)) else e, transcript, run, abort, now, pauseNow);
      case Bridge(Do(req)) =>
        ArmedKept(e.bridge, req);
        KeepsRoundFlag(e.bridge, req);
      case Bridge(Disarmed) =>
      case Bridge(Restarted(now)) => RestartDisarms(e.bridge, now);
    }
  }

  /** Driver safety over every run, restarts included. */
  lemma {:induction false} EveryDriverRunIsConsistent(e: Engine, acts: seq<DriverAction>)
    requires Consistent(e)
    ensures Consistent(DriveAll(e, acts))
  {
    if acts == [] {
    } else {
      EveryDriverRunIsConsistent(e, acts[..|acts| - 1]);
      DriveConsistent(DriveAll(e, acts[..|acts| - 1]), acts[|acts| - 1]);
    }
  }

  /** At the cap an open gate reserves nothing, and it blocks and disarms the goal exactly when the
      clock has not regressed. */
  lemma AtTheCapTheGateBlocks(e: Engine, competing: bool, now: int)
    requires GateOpen(e) && e.bridge.current.value.RoundsExhausted()
    ensures var t := MaybeQueue(e, competing, now);
            var g := e.bridge.current.value;
            && !Queues(e, competing) && t.reserved == e.reserved && t.identity == e.identity
            && (g.updatedAt <= now ==>
                  !t.bridge.armed
                  && t.bridge.current == Some(Stopped(g, Blocked, BlockReason("round-limit",
                       "Goal reached its configured limit of " + Text.Decimal(g.maxRounds.value) + " rounds."), now)))
            && (now < g.updatedAt ==> t == e)
  {
    var g := e.bridge.current.value;
    RoundLimitReasonValid(g.maxRounds.value);
    StopApplies(e.bridge, Blocked, RoundLimitReason(g.maxRounds.value), System, now);
  }

  // ----- bounded autonomy

  /** Nobody creates, replaces, edits or resumes. */
  predicate HandsOff(a: DriverAction) {
    a.Bridge? && a.act.Do? ==>
      && !a.act.req.CreateReq? && !a.act.req.ReplaceReq? && !a.act.req.EditReq?
      && !(a.act.req.SetStatusReq? && a.act.req.status.Active?)
  }

  predicate Capped(e: Engine) {
    e.bridge.armed ==> IsActive(e.bridge.current) && e.bridge.current.value.maxRounds.Some?
  }

  /** Rounds that may still be reserved: none without authority, else the rounds left under the cap
      not counting the one in flight. */
  function Allowance(e: Engine): nat {
    if !e.bridge.armed || e.bridge.current.None? || e.bridge.current.value.maxRounds.None? then 0 else
    var g := e.bridge.current.value;
    var started := g.roundsStarted + if e.reserved then 1 else 0;
    if started >= g.maxRounds.value then 0 else g.maxRounds.value - started
  }

  function Reservations(e: Engine, acts: seq<DriverAction>): nat {
    if acts == [] then 0 else
    var init, a := acts[..|acts| - 1], acts[|acts| - 1];
    Reservations(e, init) + if a.Queue? && Queues(DriveAll(e, init), a.competing) then 1 else 0
  }

  lemma HandsOffNeverArms(b: BridgeState, req: Request)
    requires ArmedIsActive(b) && HandsOff(Bridge(Do(req)))
    ensures var t := Exec(b, req).state;
            t.armed ==> && b.armed && t.current.Some?
                        && t.current.value.maxRounds == b.current.value.maxRounds
                        && b.current.value.roundsStarted <= t.current.value.roundsStarted
  {
    AcceptedExactlyWhenAdmitted(b, req);
    if req.AccountReq? { SingleEventPlans(b.threadId, b.current, req); }
  }

  lemma SettleAllowance(e: Engine, transcript: seq<Message>, run: Option<seq<Message>>, abort: bool, now: int, pauseNow: int)
    requires Consistent(e) && Capped(e)
    ensures var t := Settle(e, transcript, run, abort, now, pauseNow); Capped(t) && Allowance(t) <= Allowance(e)
  {
    SettleConsistent(e, transcript, run, abort, now, pauseNow);
    SettleChargesOnceOrDisarms(e, transcript, run, abort, now, pauseNow);
    if e.identity.Some? {
      AdmitEffect(e.bridge, e.identity.value, RunTokens(run), abort, now, pauseNow);
    }
  }

  lemma AllowanceStep(e: Engine, a: DriverAction)
    requires Consistent(e) && Capped(e) && HandsOff(a)
    ensures Capped(Drive(e, a))
    ensures Allowance(Drive(e, a)) + (if a.Queue? && Queues(e, a.competing) then 1 else 0) <= Allowance(e)
  {
    match a {
      case Queue(competing, now) =>
        if GateOpen(e) && e.bridge.current.value.RoundsExhausted() { AtTheCapTheGateBlocks(e, competing, now); }
      case Settled(transcript, run, abort, now, pauseNow) => SettleAllowance(e, transcript, run, abort, now, pauseNow);
      case Housekept(transcript, run, abort, now, pauseNow) =>
        SettleAllowance(if abort || run.None? then e.(bridge := e.bridge.(armed := false)) else e, transcript, run, abort, now, pauseNow);
      case Bridge(Do(req)) =>
        ArmedKept(e.bridge, req);
        HandsOffNeverArms(e.bridge, req);
      case Bridge(Disarmed) =>
      case Bridge(Restarted(now)) => RestartDisarms(e.bridge, now);
    }
  }

  /** However the environment schedules queues, runs, settles, stops and restarts, a capped goal that
      nobody creates, edits or resumes reserves at most its remaining rounds. */
  lemma {:induction false} AutonomyIsBounded(e: Engine, acts: seq<DriverAction>)
    requires Consistent(e) && Capped(e)
    requires forall i :: 0 <= i < |acts| ==> HandsOff(acts[i])
    ensures Capped(DriveAll(e, acts))
    ensures Reservations(e, acts) + Allowance(DriveAll(e, acts)) <= Allowance(e)
  {
    if acts == [] {
    } else {
      var init, a := acts[..|acts| - 1], acts[|acts| - 1];
      AutonomyIsBounded(e, init);
      EveryDriverRunIsConsistent(e, init);
      AllowanceStep(DriveAll(e, init), a);
    }
  }
}
