/** The continuation authority under concurrent callers. The flag is stored after the install and outside its
    lock, so a store may come late: exactly when that leaves a stopped goal armed. */
module GoalAuthority {
  import opened Wrappers
  import opened Goal
  import opened GoalService
  import opened GoalInterleaving
  import GoalRuns

  /** An accepted request past its install. */
  predicate InTail(phase: Phase) {
    phase.Installed? || phase.Cloned? || phase.Storing?
  }

  predicate Stops(req: Request) {
    req.ClearReq? || req.ModelReq? || (req.SetStatusReq? && !req.status.Active?)
  }

  /** The caller is bound to disarm: it stopped the goal, or charged a round and will find it stopped. */
  predicate OwesDisarm(w: World, t: nat) {
    && t in w.callers
    && var c := w.callers[t];
    || c.phase.Disarming?
    || (InTail(c.phase) && Stops(c.req))
    || (InTail(c.phase) && c.req.AccountReq? && w.bridge.current.Some? && !w.bridge.current.value.status.Active?)
  }

  ghost predicate DisarmOwed(w: World) {
    exists t :: OwesDisarm(w, t)
  }

  /** An armed goal is Active, or somebody is about to disarm it. */
  ghost predicate Justified(w: World) {
    w.bridge.armed ==> GoalRuns.IsActive(w.bridge.current) || DisarmOwed(w)
  }

  /** A create, replace or resume stores its authority after its goal was stopped, with every disarming store
      already made. */
  ghost predicate ArmsLate(w: World, m: Move)
    requires Enabled(w, m)
  {
    && m.Store? && w.callers[m.tid].phase.Storing? && Arms(w.callers[m.tid].req)
    && !GoalRuns.IsActive(w.bridge.current) && !DisarmOwed(w)
  }

  lemma StopInstalls(w: World, tid: nat)
    requires IsPlanned(w, tid) && Accepts(w, tid) && GoalRuns.IsActive(w.bridge.current)
    ensures var v := AfterInstall(w, tid); GoalRuns.IsActive(v.bridge.current) || OwesDisarm(v, tid)
  {
    var req, events := w.callers[tid].req, PlanOf(w, tid).events;
    GoalRuns.SingleEventPlans(w.bridge.threadId, w.callers[tid].phase.snapshot, req);
    if req.ReplaceReq? {
      assert Apply(w.bridge.current, events[0]) == Ok(None);
      assert events[1..] == [events[1]];
      ApplyAllOne(None, events[1]);
    }
  }

  /** An install on a stopped goal leaves it to its stopper, or makes it Active, or clears it and then owes
      the disarming itself. */
  lemma StoppedInstalls(w: World, tid: nat, t: nat)
    requires IsPlanned(w, tid) && Accepts(w, tid) && OwesDisarm(w, t)
    ensures var v := AfterInstall(w, tid); GoalRuns.IsActive(v.bridge.current) || OwesDisarm(v, tid) || OwesDisarm(v, t)
  {
    var req, events := w.callers[tid].req, PlanOf(w, tid).events;
    GoalRuns.SingleEventPlans(w.bridge.threadId, w.callers[tid].phase.snapshot, req);
    if req.ReplaceReq? {
      assert Apply(w.bridge.current, events[0]) == Ok(None);
      assert events[1..] == [events[1]];
      ApplyAllOne(None, events[1]);
    }
  }

  lemma InstallJustified(w: World, tid: nat)
    requires Justified(w) && IsPlanned(w, tid)
    ensures Justified(AfterInstall(w, tid))
  {
    if w.bridge.armed {
      if !Accepts(w, tid) {
        if !GoalRuns.IsActive(w.bridge.current) {
          var t :| OwesDisarm(w, t);
          assert OwesDisarm(AfterInstall(w, tid), t);
        }
      } else if GoalRuns.IsActive(w.bridge.current) {
        StopInstalls(w, tid);
      } else {
        var t :| OwesDisarm(w, t);
        StoppedInstalls(w, tid, t);
      }
    }
  }

  lemma StoreJustifiedExactlyWhen(w: World, tid: nat)
    requires Justified(w) && Enabled(w, Store(tid))
    ensures Justified(After(w, Store(tid))) <==> !ArmsLate(w, Store(tid))
  {
    var v, c := After(w, Store(tid)), w.callers[tid];
    if v.bridge.armed && !GoalRuns.IsActive(w.bridge.current) {
      if DisarmOwed(w) {
        var t :| OwesDisarm(w, t);
        assert OwesDisarm(v, t);
      }
      if DisarmOwed(v) {
        var t :| OwesDisarm(v, t);
        assert t != tid ==> OwesDisarm(w, t);
      }
    }
  }

  lemma OtherJustified(w: World, m: Move)
    requires Justified(w) && Enabled(w, m) && (m.Read? || m.Clone? || m.Route?)
    ensures Justified(After(w, m))
  {
    if w.bridge.armed && !GoalRuns.IsActive(w.bridge.current) {
      var t :| OwesDisarm(w, t);
      assert OwesDisarm(After(w, m), t);
    }
  }

  /** A move leaves a stopped goal armed for good exactly when it arms late. */
  lemma JustifiedExactlyWhen(w: World, m: Move)
    requires Justified(w) && Enabled(w, m)
    ensures Justified(After(w, m)) <==> !ArmsLate(w, m)
  {
    match m {
      case Install(tid) => InstallJustified(w, tid);
      case Store(tid) => StoreJustifiedExactlyWhen(w, tid);
      case Disarm =>
      case Crash =>
      case _ => OtherJustified(w, m);
    }
  }

  ghost predicate ArmsInTime(w: World, moves: seq<Move>)
    requires ValidMoves(w, moves)
    decreases |moves|
  {
    moves != [] ==> !ArmsLate(w, moves[0]) && ArmsInTime(After(w, moves[0]), moves[1..])
  }

  lemma {:induction false} InTimeJustified(w: World, moves: seq<Move>)
    requires Justified(w) && ValidMoves(w, moves) && ArmsInTime(w, moves)
    ensures Justified(Play(w, moves))
    decreases |moves|
  {
    if moves == [] {
    } else {
      JustifiedExactlyWhen(w, moves[0]);
      InTimeJustified(After(w, moves[0]), moves[1..]);
    }
  }

  /** In every interleaving in which nobody arms late, an armed goal is Active whenever no stop is between its
      install and its store. */
  lemma InTimeRunIsConsistent(threadId: string, moves: seq<Move>)
    requires ValidMoves(Start(threadId), moves) && ArmsInTime(Start(threadId), moves)
    ensures var w := Play(Start(threadId), moves);
            !DisarmOwed(w) ==> GoalRuns.ArmedIsActive(w.bridge)
  {
    InTimeJustified(Start(threadId), moves);
  }

  // ----- a late store

  /** Clone, route and store, one after the other. */
  function Finished(w: World, t: nat): World
    requires t in w.callers && w.callers[t].phase.Installed? && !w.callers[t].req.AccountReq?
  {
    After(After(After(w, Clone(t)), Route(t)), Store(t))
  }

  lemma CreateInstalls(w: World, create: Request) returns (v: World)
    requires w.callers == map[] && w.bridge.current.None?
    requires create.CreateReq? && CheckDraft(create.draft).Ok? && create.id !in w.used
    ensures && Enabled(w, Read(0, create)) && IsPlanned(After(w, Read(0, create)), 0)
            && v == AfterInstall(After(w, Read(0, create)), 0)
            && v.callers == map[0 := Caller(create, Installed)]
            && v.bridge.current == Some(NewGoal(w.bridge.threadId, create.draft, create.id, create.now).value)
  {
    var r := After(w, Read(0, create));
    ApplyAllOne(None, PlanOf(r, 0).events[0]);
    v := AfterInstall(r, 0);
  }

  lemma CompleteInstalls(w: World, create: Request) returns (v: World)
    requires create.CreateReq? && w.callers == map[0 := Caller(create, Installed)]
    requires GoalRuns.IsActive(w.bridge.current) && w.bridge.current.value.updatedAt <= create.now
    ensures var complete := ModelReq(Complete, None, create.now);
            && Enabled(w, Read(1, complete)) && IsPlanned(After(w, Read(1, complete)), 1)
            && v == AfterInstall(After(w, Read(1, complete)), 1)
            && v.callers == map[0 := Caller(create, Installed), 1 := Caller(complete, Installed)]
            && v.bridge.current.Some? && v.bridge.current.value.status.Complete?
  {
    var r := After(w, Read(1, ModelReq(Complete, None, create.now)));
    ApplyAllOne(w.bridge.current, PlanOf(r, 1).events[0]);
    v := AfterInstall(r, 1);
  }

  /** From any state without a goal: a create installs, the model reports completion and finishes, and then
      the create finishes. Nobody is under way any more and a Complete goal is armed. */
  lemma LateStoreArmsACompleteGoal(w: World, create: Request) returns (w1: World, w2: World, w3: World)
    requires w.callers == map[] && w.bridge.current.None?
    requires create.CreateReq? && CheckDraft(create.draft).Ok? && create.id !in w.used
    ensures var complete := ModelReq(Complete, None, create.now);
            && Enabled(w, Read(0, create)) && IsPlanned(After(w, Read(0, create)), 0)
            && w1 == AfterInstall(After(w, Read(0, create)), 0)
            && Enabled(w1, Read(1, complete)) && IsPlanned(After(w1, Read(1, complete)), 1)
            && w2 == AfterInstall(After(w1, Read(1, complete)), 1)
            && 1 in w2.callers && w2.callers[1] == Caller(complete, Installed)
            && var done := Finished(w2, 1);
            && 0 in done.callers && done.callers[0] == Caller(create, Installed)
            && w3 == Finished(done, 0)
            && w3.callers == map[] && w3.bridge.armed
            && w3.bridge.current.Some? && w3.bridge.current.value.status.Complete?
  {
    w1 := CreateInstalls(w, create);
    w2 := CompleteInstalls(w1, create);
    w3 := Finished(Finished(w2, 1), 0);
  }
}
