/** Compare-and-set under concurrent callers: what an accepted batch finds of the snapshot behind it. */
module GoalUpdates {
  import opened Wrappers
  import opened Goal
  import opened GoalService
  import opened GoalInterleaving
  import GoalRuns

  lemma SnapshotIsCurrent(w: World, tid: nat, b: ThreadGoal)
    requires Sound(w) && IsPlanned(w, tid) && w.callers[tid].phase.snapshot.Some?
    requires w.bridge.current == Some(b) && b.goalId == w.callers[tid].phase.snapshot.value.goalId
    ensures var a := w.callers[tid].phase.snapshot.value;
            && (b.revision + b.roundsStarted == a.revision + a.roundsStarted ==> b == a)
            && (b.revision == a.revision ==> a.SameDefinition(b))
  {
    var log, a := w.bridge.log, w.callers[tid].phase.snapshot.value;
    var k :| Was(log, k, Some(a));
    assert log[..|log|] == log;
    Pinned(log, k, a, |log|, b);
  }

  /** What the fold's checks alone say of an accepted batch and the snapshot behind it. */
  lemma InstallFinds(w: World, tid: nat)
    requires IsPlanned(w, tid) && Accepts(w, tid)
    ensures var req, snapshot := w.callers[tid].req, w.callers[tid].phase.snapshot;
            var e := PlanOf(w, tid).events[0].kind;
            && ((e.Updated? || e.Cleared?) ==>
                  && w.bridge.current.Some? && snapshot.Some?
                  && w.bridge.current.value.goalId == snapshot.value.goalId
                  && w.bridge.current.value.revision == snapshot.value.revision
                  && (e.Updated? ==> w.bridge.current.value.roundsStarted == snapshot.value.roundsStarted))
            && (req.AccountReq? ==>
                  && w.bridge.current.Some?
                  && w.bridge.current.value.goalId == req.goalId
                  && w.bridge.current.value.revision == req.revision
                  && req.round == w.bridge.current.value.roundsStarted + 1)
            && (req.ClearReq? || req.ReplaceReq? ==> e.Cleared?)
  {
    var events := PlanOf(w, tid).events;
    assert Apply(w.bridge.current, events[0]).Ok?;
  }

  /** The round a caller accounts for is the next one of the snapshot it read. */
  predicate ReservedFrom(req: Request, snapshot: Option<ThreadGoal>) {
    && req.AccountReq? && snapshot.Some?
    && req.goalId == snapshot.value.goalId && req.revision == snapshot.value.revision
    && req.round == snapshot.value.roundsStarted + 1
  }

  /** In every interleaving, an update is installed only onto the very snapshot it was built from, and a
      round reserved from a snapshot is charged only onto that snapshot. A clear or replace meets the same
      goal at the same revision and definition, and its own snapshot exactly when no round was charged in
      between. */
  lemma NoLostUpdate(threadId: string, moves: seq<Move>, tid: nat)
    requires ValidMoves(Start(threadId), moves)
    requires var w := Play(Start(threadId), moves); IsPlanned(w, tid) && Accepts(w, tid)
    ensures var w := Play(Start(threadId), moves);
            var req, snapshot := w.callers[tid].req, w.callers[tid].phase.snapshot;
            && (PlanOf(w, tid).events[0].kind.Updated? ==> w.bridge.current == snapshot)
            && (ReservedFrom(req, snapshot) ==> w.bridge.current == snapshot)
            && (req.ClearReq? || req.ReplaceReq? ==>
                  && w.bridge.current.Some? && snapshot.Some?
                  && w.bridge.current.value.goalId == snapshot.value.goalId
                  && w.bridge.current.value.revision == snapshot.value.revision
                  && w.bridge.current.value.SameDefinition(snapshot.value)
                  && (w.bridge.current == snapshot <==> w.bridge.current.value.roundsStarted == snapshot.value.roundsStarted))
  {
    StartSound(threadId);
    PlayKeeps(Start(threadId), moves);
    var w := Play(Start(threadId), moves);
    var snapshot := w.callers[tid].phase.snapshot;
    InstallFinds(w, tid);
    if snapshot.Some? && w.bridge.current.Some? && w.bridge.current.value.goalId == snapshot.value.goalId {
      SnapshotIsCurrent(w, tid, w.bridge.current.value);
    }
  }

  /** A clear or replace checks the revision but not the rounds: from any state with an Active goal below
      its cap, a round charged between its read and its install is wiped out with the goal. */
  lemma ClearMayDropARound(w: World, req: Request, now: int) returns (w1: World, w2: World, w3: World)
    requires w.callers == map[] && GoalRuns.IsActive(w.bridge.current) && !w.bridge.current.value.RoundsExhausted()
    requires req.ClearReq? || (req.ReplaceReq? && CheckDraft(req.draft).Ok? && req.id !in w.used)
    ensures var g := w.bridge.current.value;
            var account := AccountReq(g.roundsStarted + 1, g.revision, g.goalId, 1, now);
            && Enabled(w, Read(0, req)) && w1 == After(w, Read(0, req))
            && Enabled(w1, Read(1, account)) && w2 == After(w1, Read(1, account))
            && Enabled(w2, Install(1)) && w3 == After(w2, Install(1))
            && w3.bridge.current.Some? && w3.bridge.current.value.roundsStarted == g.roundsStarted + 1
            && Enabled(w3, Install(0)) && w3.callers[0].phase.snapshot == Some(g) && Accepts(w3, 0)
            && var after := After(w3, Install(0)).bridge.current;
               if req.ClearReq? then after.None?
               else after.Some? && after.value.goalId == req.id && after.value.roundsStarted == 0
  {
    var g := w.bridge.current.value;
    var account := AccountReq(g.roundsStarted + 1, g.revision, g.goalId, 1, now);
    w1 := After(w, Read(0, req));
    w2 := After(w1, Read(1, account));
    w3 := After(w2, Install(1));
    var charged := Charge(g, g.roundsStarted + 1, 1, now);
    ApplyAllOne(Some(g), PlanOf(w2, 1).events[0]);
    assert w3.bridge.current == Some(charged);
    if req.ClearReq? {
      ApplyAllOne(Some(charged), PlanOf(w3, 0).events[0]);
    } else {
      ReplaceApplies(w.bridge.threadId, g, charged, req);
    }
  }

  /** The batch of a replace applies to any later state of the goal at the same revision. */
  lemma ReplaceApplies(threadId: string, g: ThreadGoal, later: ThreadGoal, req: Request)
    requires req.ReplaceReq? && CheckDraft(req.draft).Ok?
    requires later.goalId == g.goalId && later.revision == g.revision
    ensures var plan := PlanFor(threadId, Some(g), req);
            plan.Batch? && ApplyAll(Some(later), plan.events) == Ok(Some(NewGoal(threadId, req.draft, req.id, req.now).value))
  {
    assert PlanFor(threadId, Some(g), req) == PlanFor(threadId, Some(later), req);
    GoalRuns.ReplaceApplies(threadId, later, req.draft, req.actor, req.id, req.now);
  }
}
