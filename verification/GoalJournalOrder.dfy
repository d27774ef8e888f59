/** The journal under concurrent callers: a row is cloned and routed after the fold lock is released and may be
    overtaken. When the last row is the cache, what a crash loses, and what the goal accounts for. */
module GoalJournalOrder {
  import opened Wrappers
  import opened Goal
  import opened GoalService
  import opened GoalInterleaving
  import GoalUpdates
  import GoalRuns

  // ----- when the last row is the cache

  /** No goal is left after the first `k` events: none came, or the last of them cleared it. */
  predicate EndsEmpty(log: seq<GoalEvent>, k: nat)
    requires k <= |log|
  {
    k == 0 || log[k - 1].kind.Cleared?
  }

  lemma EmptyExactlyWhen(log: seq<GoalEvent>, k: nat, g: Option<ThreadGoal>)
    requires Was(log, k, g)
    ensures g.None? <==> EndsEmpty(log, k)
  {
    if k == 0 {
      assert log[..0] == [];
    } else {
      var prev := WasBefore(log, k, g);
    }
  }

  /** The last row is the cache exactly when it was cloned after the last install, or when neither the
      history it knows nor the whole history leaves a goal. */
  lemma RowIsCurrentExactlyWhen(w: World)
    requires Sound(w)
    ensures LastState(w.bridge.rows) == w.bridge.current <==>
              w.mark == |w.bridge.log| || (EndsEmpty(w.bridge.log, w.mark) && EndsEmpty(w.bridge.log, |w.bridge.log|))
  {
    var log, row := w.bridge.log, LastState(w.bridge.rows);
    assert log[..|log|] == log;
    assert Was(log, |log|, w.bridge.current);
    EmptyExactlyWhen(log, w.mark, row);
    EmptyExactlyWhen(log, |log|, w.bridge.current);
    if row.Some? && row == w.bridge.current { Pinned(log, w.mark, row.value, |log|, row.value); }
  }

  /** A crash brings back what the last row holds and forgets exactly the events installed since it was
      cloned; it loses nothing exactly when there are none. */
  lemma CrashLosesTheUnrouted(w: World)
    requires Sound(w)
    ensures var v := After(w, Crash);
            && v.bridge.log + w.bridge.log[w.mark..] == w.bridge.log
            && (v.bridge.log == w.bridge.log <==> w.mark == |w.bridge.log|)
            && v.bridge.current == LastState(w.bridge.rows) && Fold(v.bridge.log) == Ok(v.bridge.current)
            && !v.bridge.armed && !v.bridge.roundActive
  {
    CrashKeeps(w);
  }

  /** Together with the pause that the seed requests when it finds the goal Active, a crash is the restart
      of a single-caller run over the surviving history. */
  lemma CrashThenPauseIsRestart(w: World, now: int)
    requires Sound(w)
    ensures var v := After(w, Crash).bridge;
            Restart(w.bridge.(log := w.bridge.log[..w.mark]), now) ==
              if GoalRuns.IsActive(v.current) then Exec(v, RestartPause(now)).state else v
  {
    var s := After(w, Crash).bridge;
    assert s.stored && s == GoalRuns.Reseeded(s);
    assert Restart(w.bridge.(log := w.bridge.log[..w.mark]), now) == Restart(s, now);
    GoalRuns.RestartReseeds(s, now);
  }

  // ----- a caller alone

  function StepsLeft(w: World, tid: nat): nat {
    if tid !in w.callers then 0 else
    match w.callers[tid].phase
    case Planned(_) => 5
    case Installed => 4
    case Cloned(_, _) => 3
    case Storing => 2
    case Disarming => 1
  }

  /** The caller's own moves, one after the other, until it is done. */
  function RunOut(w: World, tid: nat): World
    decreases StepsLeft(w, tid)
  {
    if tid !in w.callers then w else
    match w.callers[tid].phase
    case Planned(_) => RunOut(After(w, Install(tid)), tid)
    case Installed => RunOut(After(w, Clone(tid)), tid)
    case Cloned(_, _) => RunOut(After(w, Route(tid)), tid)
    case Storing => RunOut(After(w, Store(tid)), tid)
    case Disarming => RunOut(After(w, Store(tid)), tid)
  }

  /** With nobody in between, the moves of a request make of the bridge what the whole request does at once, and
      the last row knows everything. */
  lemma LoneCallerIsExec(w: World, tid: nat, req: Request)
    requires Enabled(w, Read(tid, req)) && w.bridge.stored && w.mark == |w.bridge.log|
    ensures var v := RunOut(After(w, Read(tid, req)), tid);
            v.bridge == Exec(w.bridge, req).state && v.callers == w.callers && v.mark == |v.bridge.log|
  {
    var r := After(w, Read(tid, req));
    var a := After(r, Install(tid));
    if tid in a.callers {
      InstalledRunsOut(a, tid);
      assert a.callers - {tid} == w.callers;
      if req.AccountReq? { ApplyAllOne(w.bridge.current, PlanOf(r, tid).events[0]); }
    } else {
      assert r.callers - {tid} == w.callers;
    }
  }

  lemma InstalledRunsOut(a: World, tid: nat)
    requires tid in a.callers && a.callers[tid].phase.Installed?
    ensures var v, req := RunOut(a, tid), a.callers[tid].req;
            && v.callers == a.callers - {tid} && v.mark == |a.bridge.log|
            && v.bridge == a.bridge.(
                 rows := a.bridge.rows + [a.bridge.current],
                 armed := if req.EditReq? then a.bridge.armed
                          else if req.AccountReq? then a.bridge.armed && !(a.bridge.current.Some? && !a.bridge.current.value.status.Active?)
                          else req.CreateReq? || req.ReplaceReq? || (req.SetStatusReq? && req.status.Active?))
  {
    var c := After(a, Clone(tid));
    var d := After(c, Route(tid));
    var e := After(d, Store(tid));
    assert RunOut(a, tid) == RunOut(c, tid);
    assert RunOut(c, tid) == RunOut(d, tid);
    assert RunOut(d, tid) == RunOut(e, tid);
    if tid in e.callers {
      var f := After(e, Store(tid));
      assert RunOut(e, tid) == RunOut(f, tid) == f;
    }
  }

  /** The driver may disarm at any moment, and that alone changes. */
  lemma DisarmIsFree(w: World)
    ensures Enabled(w, Disarm) && After(w, Disarm) == w.(bridge := w.bridge.(armed := false))
  {
  }

  // ----- overtaking

  /** The caller has yet to route a row that will hold everything installed so far. */
  predicate OwesRow(w: World, t: nat) {
    t in w.callers && (w.callers[t].phase.Installed? || (w.callers[t].phase.Cloned? && w.callers[t].phase.at == |w.bridge.log|))
  }

  ghost predicate RowOwed(w: World) {
    exists t :: OwesRow(w, t)
  }

  /** The journal knows every installed event or is about to. */
  ghost predicate KeepsUp(w: World) {
    w.mark == |w.bridge.log| || RowOwed(w)
  }

  /** A clone taken before the last install is routed after the row of that install, with nobody left to
      route a newer one. */
  ghost predicate Overtaken(w: World, m: Move)
    requires Enabled(w, m)
  {
    m.Route? && w.callers[m.tid].phase.at < |w.bridge.log| && w.mark == |w.bridge.log| && !RowOwed(w)
  }

  lemma OtherOwes(w: World, v: World, tid: nat, t: nat)
    requires OwesRow(w, t) && t != tid && t in v.callers && v.callers[t] == w.callers[t] && v.bridge.log == w.bridge.log
    ensures RowOwed(v)
  {
    assert OwesRow(v, t);
  }

  lemma InstallKeepsUp(w: World, tid: nat)
    requires KeepsUp(w) && IsPlanned(w, tid)
    ensures KeepsUp(AfterInstall(w, tid))
  {
    var v := AfterInstall(w, tid);
    if Accepts(w, tid) {
      assert OwesRow(v, tid);
    } else if w.mark != |w.bridge.log| {
      var t :| OwesRow(w, t);
      OtherOwes(w, v, tid, t);
    }
  }

  lemma RouteKeepsUpExactlyWhen(w: World, tid: nat)
    requires Sound(w) && KeepsUp(w) && IsCloned(w, tid)
    ensures KeepsUp(After(w, Route(tid))) <==> !Overtaken(w, Route(tid))
  {
    var v := After(w, Route(tid));
    assert Was(w.bridge.log, w.callers[tid].phase.at, w.callers[tid].phase.row);
    if w.callers[tid].phase.at < |w.bridge.log| {
      assert !OwesRow(w, tid) && !OwesRow(v, tid);
      if RowOwed(w) {
        var t :| OwesRow(w, t);
        OtherOwes(w, v, tid, t);
      } else if RowOwed(v) {
        var t :| OwesRow(v, t);
        OtherOwes(v, w, tid, t);
      }
    }
  }

  lemma TailKeepsUp(w: World, m: Move)
    requires KeepsUp(w) && Enabled(w, m) && (m.Read? || m.Clone? || m.Store? || m.Disarm?)
    ensures KeepsUp(After(w, m))
  {
    var v := After(w, m);
    if w.mark != |w.bridge.log| {
      var t :| OwesRow(w, t);
      assert OwesRow(v, t);
    }
  }

  /** A move leaves the journal behind exactly when it routes an overtaken clone. */
  lemma KeepsUpExactlyWhen(w: World, m: Move)
    requires Sound(w) && KeepsUp(w) && Enabled(w, m)
    ensures KeepsUp(After(w, m)) <==> !Overtaken(w, m)
  {
    match m {
      case Install(tid) => InstallKeepsUp(w, tid);
      case Route(tid) => RouteKeepsUpExactlyWhen(w, tid);
      case Crash =>
      case _ => TailKeepsUp(w, m);
    }
  }

  /** A run in which no clone is overtaken. */
  ghost predicate InOrder(w: World, moves: seq<Move>)
    requires ValidMoves(w, moves)
    decreases |moves|
  {
    moves != [] ==> !Overtaken(w, moves[0]) && InOrder(After(w, moves[0]), moves[1..])
  }

  lemma {:induction false} InOrderKeepsUp(w: World, moves: seq<Move>)
    requires Sound(w) && KeepsUp(w) && ValidMoves(w, moves) && InOrder(w, moves)
    ensures Sound(Play(w, moves)) && KeepsUp(Play(w, moves))
    decreases |moves|
  {
    if moves == [] {
    } else {
      MoveKeeps(w, moves[0]);
      KeepsUpExactlyWhen(w, moves[0]);
      InOrderKeepsUp(After(w, moves[0]), moves[1..]);
    }
  }

  /** In every interleaving in which no clone is overtaken, whenever no caller stands between its install and
      its route the last row is the cache and a crash loses nothing. */
  lemma InOrderRunIsDurable(threadId: string, moves: seq<Move>)
    requires ValidMoves(Start(threadId), moves) && InOrder(Start(threadId), moves)
    ensures var w := Play(Start(threadId), moves);
            !RowOwed(w) ==>
              && LastState(w.bridge.rows) == w.bridge.current
              && Enabled(w, Crash) && After(w, Crash).bridge.current == w.bridge.current && After(w, Crash).bridge.log == w.bridge.log
  {
    StartSound(threadId);
    InOrderKeepsUp(Start(threadId), moves);
    var w := Play(Start(threadId), moves);
    if !RowOwed(w) {
      RowIsCurrentExactlyWhen(w);
      CrashLosesTheUnrouted(w);
    }
  }

  // ----- an overtaken clone

  /** The goal an edit makes of `g`. */
  function Edited(g: ThreadGoal, d: Draft, now: int): ThreadGoal
    requires CheckDraft(d).Ok?
  {
    g.(objective := CheckDraft(d).value.objective, tokenBudget := d.tokenBudget, maxRounds := d.maxRounds,
       revision := g.revision + 1, updatedAt := now)
  }

  lemma EditInstalls(w: World, edit: Request, g: ThreadGoal) returns (v: World)
    requires w.callers == map[] && w.bridge.current == Some(g) && edit.EditReq? && g.updatedAt <= edit.now
    requires CheckDraft(edit.draft).Ok?
    ensures var r := After(w, Read(0, edit));
            && Enabled(r, Install(0)) && v == After(r, Install(0))
            && v.bridge.current == Some(Edited(g, edit.draft, edit.now)) && |v.bridge.log| == |w.bridge.log| + 1
            && v.callers == map[0 := Caller(edit, Installed)]
  {
    var r := After(w, Read(0, edit));
    ApplyAllOne(Some(g), PlanOf(r, 0).events[0]);
    v := After(r, Install(0));
  }

  lemma RoundInstalls(w: World, account: Request) returns (v: World)
    requires account.AccountReq? && 1 !in w.callers && GoalRuns.Admits(w.bridge.current, account)
    ensures var r := After(w, Read(1, account));
            && Enabled(r, Install(1)) && v == After(r, Install(1))
            && v.bridge.current == Some(Charge(w.bridge.current.value, account.round, account.tokensDelta, account.now))
            && |v.bridge.log| == |w.bridge.log| + 1 && v.callers == w.callers[1 := Caller(account, Installed)]
  {
    var r := After(w, Read(1, account));
    ApplyAllOne(w.bridge.current, PlanOf(r, 1).events[0]);
    v := After(r, Install(1));
  }

  /** The later row is routed first and the older clone after it. */
  lemma StaleRouted(w: World, row: Option<ThreadGoal>, at: nat) returns (v: World)
    requires w.callers.Keys == {0, 1} && w.callers[0].phase == Cloned(row, at) && w.callers[1].phase.Installed?
    requires at < |w.bridge.log|
    ensures && Enabled(w, Clone(1)) && Enabled(After(w, Clone(1)), Route(1))
            && Enabled(After(After(w, Clone(1)), Route(1)), Route(0))
            && v == After(After(After(w, Clone(1)), Route(1)), Route(0))
            && v.bridge.current == w.bridge.current && v.bridge.log == w.bridge.log
            && LastState(v.bridge.rows) == row && v.mark == at
            && !RowOwed(v) && After(v, Crash).bridge.current == row
  {
    v := After(After(After(w, Clone(1)), Route(1)), Route(0));
  }

  /** From any state with an Active goal: an edit installs and clones, a round of the edited goal is
      installed, cloned and routed, and then the edit's clone is routed. Every caller has routed its row, yet
      the last row misses the round, and the process that starts next has lost it. */
  lemma OvertakenCloneLosesARound(w: World, d: Draft, tokens: nat, now: int) returns (w1: World, w2: World, w3: World)
    requires w.callers == map[] && GoalRuns.IsActive(w.bridge.current) && w.bridge.current.value.updatedAt <= now
    requires CheckDraft(d).Ok? && (d.maxRounds.Some? ==> w.bridge.current.value.roundsStarted < d.maxRounds.value)
    ensures var g := w.bridge.current.value;
            var edit, account := EditReq(d, User, now), AccountReq(g.roundsStarted + 1, g.revision + 1, g.goalId, tokens, now);
            var r := After(w, Read(0, edit));
            && Enabled(r, Install(0)) && Enabled(After(r, Install(0)), Clone(0)) && w1 == After(After(r, Install(0)), Clone(0))
            && Enabled(w1, Read(1, account)) && Enabled(After(w1, Read(1, account)), Install(1))
            && w2 == After(After(w1, Read(1, account)), Install(1))
            && Enabled(w2, Clone(1)) && Enabled(After(w2, Clone(1)), Route(1))
            && Enabled(After(After(w2, Clone(1)), Route(1)), Route(0))
            && w3 == After(After(After(w2, Clone(1)), Route(1)), Route(0))
            && !RowOwed(w3)
            && w3.bridge.current.Some? && w3.bridge.current.value.goalId == g.goalId
            && w3.bridge.current.value.roundsStarted == g.roundsStarted + 1
            && LastState(w3.bridge.rows).Some? && LastState(w3.bridge.rows).value.goalId == g.goalId
            && LastState(w3.bridge.rows).value.roundsStarted == g.roundsStarted
            && w3.mark < |w3.bridge.log| && After(w3, Crash).bridge.current == LastState(w3.bridge.rows)
  {
    var g := w.bridge.current.value;
    w1 := EditInstalls(w, EditReq(d, User, now), g);
    w1 := After(w1, Clone(0));
    w2 := RoundInstalls(w1, AccountReq(g.roundsStarted + 1, g.revision + 1, g.goalId, tokens, now));
    w3 := StaleRouted(w2, w1.bridge.current, |w1.bridge.log|);
  }

  // ----- the ledger

  /** The cache and the last row account for exactly the events they know. */
  predicate BothAccounted(w: World) {
    && GoalRuns.Accounted(w.bridge.log, w.bridge.current)
    && w.mark <= |w.bridge.log| && GoalRuns.Accounted(w.bridge.log[..w.mark], LastState(w.bridge.rows))
  }

  /** And so does every clone under way. */
  ghost predicate Books(w: World) {
    && BothAccounted(w)
    && forall t :: IsCloned(w, t) ==> CloneAccounted(w, t)
  }

  predicate CloneAccounted(w: World, t: nat)
    requires IsCloned(w, t)
  {
    var phase := w.callers[t].phase;
    phase.at <= |w.bridge.log| && GoalRuns.Accounted(w.bridge.log[..phase.at], phase.row)
  }

  lemma InstallCarries(w: World, tid: nat)
    requires Sound(w) && IsPlanned(w, tid) && Accepts(w, tid)
    ensures GoalRuns.CarriesTokens(w.bridge.current, PlanOf(w, tid).events)
  {
    GoalRuns.PlansCarryTokens(w.bridge.threadId, w.callers[tid].phase.snapshot, w.callers[tid].req);
    GoalUpdates.InstallFinds(w, tid);
    if PlanOf(w, tid).events[0].kind.Updated? { GoalUpdates.SnapshotIsCurrent(w, tid, w.bridge.current.value); }
  }

  lemma InstallKeepsBooks(w: World, tid: nat)
    requires Sound(w) && Books(w) && IsPlanned(w, tid)
    ensures Books(AfterInstall(w, tid))
  {
    var v := AfterInstall(w, tid);
    if Accepts(w, tid) {
      InstallCarries(w, tid);
      GoalRuns.LedgerBatch(w.bridge.log, w.bridge.current, PlanOf(w, tid).events);
      assert v.bridge.log[..w.mark] == w.bridge.log[..w.mark];
    }
    forall t | IsCloned(v, t) ensures CloneAccounted(v, t) {
      assert IsCloned(w, t) && CloneAccounted(w, t);
      var at := w.callers[t].phase.at;
      assert v.bridge.log[..at] == w.bridge.log[..at];
    }
  }

  lemma TailKeepsBooks(w: World, m: Move)
    requires Books(w) && Enabled(w, m) && !m.Install?
    ensures Books(After(w, m))
  {
    var v, log := After(w, m), w.bridge.log;
    assert log[..|log|] == log && log[..w.mark][..w.mark] == log[..w.mark];
    forall t | IsCloned(v, t) ensures CloneAccounted(v, t) {
      if IsCloned(w, t) { assert CloneAccounted(w, t); }
    }
  }

  lemma {:induction false} PlayKeepsBooks(w: World, moves: seq<Move>)
    requires Sound(w) && Books(w) && ValidMoves(w, moves)
    ensures Books(Play(w, moves))
    decreases |moves|
  {
    if moves == [] {
    } else {
      MoveKeeps(w, moves[0]);
      if moves[0].Install? { InstallKeepsBooks(w, moves[0].tid); } else { TailKeepsBooks(w, moves[0]); }
      PlayKeepsBooks(After(w, moves[0]), moves[1..]);
    }
  }

  /** In every interleaving, crashes at any moment included, the goal's rounds, revision and clipped tokens
      are exactly those of the surviving events since its creation; so are the last row's of the events it
      knows, whatever the order of routing. */
  lemma LedgerHoldsUnderInterleaving(threadId: string, moves: seq<Move>)
    requires ValidMoves(Start(threadId), moves)
    ensures BothAccounted(Play(Start(threadId), moves))
  {
    StartSound(threadId);
    PlayKeepsBooks(Start(threadId), moves);
  }
}
