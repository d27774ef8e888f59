/** The bridge under concurrent callers, a request being a chain of atomic moves as the program's locks cut it.
    A crash drops every caller and seeds a new bridge from the last row. Fresh goal ids never repeat. */
module GoalInterleaving {
  import opened Wrappers
  import opened Goal
  import opened GoalService
  import GoalRuns

  // A request reads the snapshot and plans, installs its batch under the fold lock, clones the new snapshot under
  // a second lock, routes it as a journal row, and stores the continuation authority.

  /** Where a caller stands; `at` is the number of events installed when it cloned. */
  datatype Phase =
    | Planned(snapshot: Option<ThreadGoal>)
    | Installed
    | Cloned(row: Option<ThreadGoal>, at: nat)
    | Storing
    | Disarming

  datatype Caller = Caller(req: Request, phase: Phase)

  /** `mark` is the number of events installed when the last routed row was cloned. The bridge's `log` is the
      surviving history: a crash cuts it back to the mark, which is what the last row knows of it. */
  datatype World = World(bridge: BridgeState, callers: map<nat, Caller>, mark: nat, used: set<string>)

  datatype Move =
    | Read(tid: nat, req: Request)
    | Install(tid: nat)
    | Clone(tid: nat)
    | Route(tid: nat)
    | Store(tid: nat)
    | Disarm
    | Crash

  function NewId(req: Request): Option<string> {
    match req
    case CreateReq(_, _, id, _) => Some(id)
    case ReplaceReq(_, _, id, _) => Some(id)
    case _ => None
  }

  predicate IsPlanned(w: World, tid: nat) {
    tid in w.callers && w.callers[tid].phase.Planned?
  }

  predicate IsCloned(w: World, tid: nat) {
    tid in w.callers && w.callers[tid].phase.Cloned?
  }

  function PlanOf(w: World, tid: nat): Plan
    requires IsPlanned(w, tid)
  {
    PlanFor(w.bridge.threadId, w.callers[tid].phase.snapshot, w.callers[tid].req)
  }

  /** The caller's plan is a batch that the fold accepts now. */
  predicate Accepts(w: World, tid: nat)
    requires IsPlanned(w, tid)
  {
    PlanOf(w, tid).Batch? && ApplyAll(w.bridge.current, PlanOf(w, tid).events).Ok?
  }

  /** What the last row says the goal is. */
  function LastState(rows: seq<Option<ThreadGoal>>): Option<ThreadGoal> {
    if rows == [] then None else rows[|rows| - 1]
  }

  predicate Enabled(w: World, m: Move) {
    match m
    case Read(tid, req) => tid !in w.callers && (NewId(req).Some? ==> NewId(req).value !in w.used)
    case Install(tid) => IsPlanned(w, tid)
    case Clone(tid) => tid in w.callers && w.callers[tid].phase.Installed?
    case Route(tid) => IsCloned(w, tid)
    case Store(tid) => tid in w.callers && (w.callers[tid].phase.Storing? || w.callers[tid].phase.Disarming?)
    case Disarm => true
    case Crash => w.mark <= |w.bridge.log|
  }

  function To(w: World, tid: nat, phase: Phase): World
    requires tid in w.callers
  {
    w.(callers := w.callers[tid := w.callers[tid].(phase := phase)])
  }

  function Leave(w: World, tid: nat): World {
    w.(callers := w.callers - {tid})
  }

  function AfterInstall(w: World, tid: nat): World
    requires IsPlanned(w, tid)
  {
    if !Accepts(w, tid) then Leave(w, tid) else
    var events := PlanOf(w, tid).events;
    To(w, tid, Installed).(bridge := w.bridge.(current := ApplyAll(w.bridge.current, events).value, log := w.bridge.log + events))
  }

  predicate Arms(req: Request) {
    req.CreateReq? || req.ReplaceReq? || (req.SetStatusReq? && req.status.Active?)
  }

  /** The last step of a request. Accounting a round reads the goal once more and disarms in a step of its
      own when it finds it stopped; an edit leaves the authority alone. */
  function AfterStore(w: World, tid: nat): World
    requires Enabled(w, Store(tid))
  {
    var req := w.callers[tid].req;
    var done := Leave(w, tid);
    if w.callers[tid].phase.Disarming? then done.(bridge := w.bridge.(armed := false))
    else if req.EditReq? then done
    else if req.AccountReq? then
      if w.bridge.current.Some? && !w.bridge.current.value.status.Active? then To(w, tid, Disarming) else done
    else done.(bridge := w.bridge.(armed := Arms(req)))
  }

  function After(w: World, m: Move): World
    requires Enabled(w, m)
  {
    match m
    case Read(tid, req) =>
      w.(callers := w.callers[tid := Caller(req, Planned(w.bridge.current))],
         used := if NewId(req).Some? then w.used + {NewId(req).value} else w.used)
    case Install(tid) => AfterInstall(w, tid)
    case Clone(tid) => To(w, tid, Cloned(w.bridge.current, |w.bridge.log|))
    case Route(tid) =>
      var row := w.callers[tid].phase;
      To(w, tid, Storing).(bridge := w.bridge.(rows := w.bridge.rows + [row.row]), mark := row.at)
    case Store(tid) => AfterStore(w, tid)
    case Disarm => w.(bridge := w.bridge.(armed := false))
    case Crash =>
      w.(bridge := Fresh(w.bridge.threadId, true).(
                     rows := w.bridge.rows, log := w.bridge.log[..w.mark], current := LastState(w.bridge.rows)),
         callers := map[])
  }

  predicate ValidMoves(w: World, moves: seq<Move>)
    decreases |moves|
  {
    moves != [] ==> Enabled(w, moves[0]) && ValidMoves(After(w, moves[0]), moves[1..])
  }

  function Play(w: World, moves: seq<Move>): World
    requires ValidMoves(w, moves)
    decreases |moves|
  {
    if moves == [] then w else Play(After(w, moves[0]), moves[1..])
  }

  function Start(threadId: string): World {
    World(Fresh(threadId, true), map[], 0, {})
  }

  // ----- how the log pins a state

  predicate DistinctIds(log: seq<GoalEvent>) {
    forall i, j :: 0 <= i < j < |log| && log[i].kind.Created? && log[j].kind.Created? ==>
      log[i].kind.goal.goalId != log[j].kind.goal.goalId
  }

  predicate HoldsId(log: seq<GoalEvent>, id: string) {
    exists i :: 0 <= i < |log| && log[i].kind.Created? && log[i].kind.goal.goalId == id
  }

  /** The goal after the first `k` accepted events was `g`. */
  predicate Was(log: seq<GoalEvent>, k: nat, g: Option<ThreadGoal>) {
    k <= |log| && Fold(log[..k]) == Ok(g)
  }

  lemma WasBefore(log: seq<GoalEvent>, k: nat, g: Option<ThreadGoal>) returns (prev: Option<ThreadGoal>)
    requires k > 0 && Was(log, k, g)
    ensures Was(log, k - 1, prev) && Apply(prev, log[k - 1]) == Ok(g)
  {
    var shorter := log[..k - 1];
    assert log[..k] == shorter + [log[k - 1]];
    ApplyAllConcat(None, shorter, [log[k - 1]]);
    prev := Fold(shorter).value;
    ApplyAllOne(prev, log[k - 1]);
  }

  lemma {:induction false} Origin(log: seq<GoalEvent>, k: nat, g: ThreadGoal) returns (m: nat)
    requires Was(log, k, Some(g))
    ensures m < k && log[m].kind.Created? && log[m].kind.goal.goalId == g.goalId
  {
    assert k > 0;
    var prev := WasBefore(log, k, Some(g));
    if log[k - 1].kind.Created? { m := k - 1; } else { m := Origin(log, k - 1, prev.value); }
  }

  /** Between two states of one goal every event is an update or a round, and each advances
      revision + rounds by one: the pair pins the state. */
  lemma {:induction false} Pinned(log: seq<GoalEvent>, j: nat, a: ThreadGoal, k: nat, b: ThreadGoal)
    requires DistinctIds(log) && j <= k
    requires Was(log, j, Some(a)) && Was(log, k, Some(b)) && a.goalId == b.goalId
    ensures b.revision + b.roundsStarted == a.revision + a.roundsStarted + (k - j)
    ensures a.revision <= b.revision && a.roundsStarted <= b.roundsStarted
    ensures a.revision == b.revision ==> a.SameDefinition(b)
    decreases k
  {
    if j < k {
      var prev := WasBefore(log, k, Some(b));
      var m := Origin(log, j, a);
      assert !log[k - 1].kind.Created?;
      Pinned(log, j, a, k - 1, prev.value);
    }
  }

  // ----- the invariant

  predicate FoldOk(w: World) {
    w.bridge.stored && Fold(w.bridge.log) == Ok(w.bridge.current)
  }

  /** The last row, and every clone on its way to become one, is a state the goal once had. */
  ghost predicate RowsOk(w: World) {
    && Was(w.bridge.log, w.mark, LastState(w.bridge.rows))
    && (forall t :: IsCloned(w, t) ==> Was(w.bridge.log, w.callers[t].phase.at, w.callers[t].phase.row))
  }

  /** The id a planned creation will introduce. */
  function Claimed(w: World, t: nat): Option<string> {
    if IsPlanned(w, t) then NewId(w.callers[t].req) else None
  }

  ghost predicate IdsOk(w: World) {
    && DistinctIds(w.bridge.log)
    && (forall i :: 0 <= i < |w.bridge.log| && w.bridge.log[i].kind.Created? ==> w.bridge.log[i].kind.goal.goalId in w.used)
    && (forall t :: Claimed(w, t).Some? ==> Claimed(w, t).value in w.used && !HoldsId(w.bridge.log, Claimed(w, t).value))
    && (forall t, u :: t != u && Claimed(w, t).Some? ==> Claimed(w, t) != Claimed(w, u))
  }

  ghost predicate PlansOk(w: World) {
    forall t :: IsPlanned(w, t) ==> exists k :: Was(w.bridge.log, k, w.callers[t].phase.snapshot)
  }

  ghost predicate Sound(w: World) {
    FoldOk(w) && RowsOk(w) && IdsOk(w) && PlansOk(w)
  }

  /** Only the last event creates, and then a goal of this id. */
  predicate CreatesLast(events: seq<GoalEvent>, id: Option<string>) {
    forall i :: 0 <= i < |events| && events[i].kind.Created? ==> id == Some(events[i].kind.goal.goalId) && i == |events| - 1
  }

  lemma PlanCreates(threadId: string, snapshot: Option<ThreadGoal>, req: Request)
    ensures var plan := PlanFor(threadId, snapshot, req);
            plan.Batch? ==> CreatesLast(plan.events, NewId(req))
  {
  }

  /** A longer log whose only new creation carries an id outside the old log keeps ids distinct. */
  lemma DistinctGrows(log: seq<GoalEvent>, events: seq<GoalEvent>, id: Option<string>)
    requires DistinctIds(log)
    requires id.Some? ==> !HoldsId(log, id.value)
    requires CreatesLast(events, id)
    ensures DistinctIds(log + events)
    ensures forall x :: HoldsId(log + events, x) ==> HoldsId(log, x) || id == Some(x)
  {
    var all := log + events;
    assert forall i :: |log| <= i < |all| ==> all[i] == events[i - |log|];
    forall x | HoldsId(all, x) ensures HoldsId(log, x) || id == Some(x) {
      var i :| 0 <= i < |all| && all[i].kind.Created? && all[i].kind.goal.goalId == x;
      if i < |log| { assert log[i] == all[i]; }
    }
    forall i, j | 0 <= i < j < |all| && all[i].kind.Created? && all[j].kind.Created?
      ensures all[i].kind.goal.goalId != all[j].kind.goal.goalId
    {
      if j < |log| {
        assert all[i] == log[i] && all[j] == log[j];
      } else {
        if i < |log| { assert all[i] == log[i]; }
      }
    }
  }

  lemma WasSurvives(log: seq<GoalEvent>, events: seq<GoalEvent>, k: nat, g: Option<ThreadGoal>)
    requires Was(log, k, g)
    ensures Was(log + events, k, g)
  {
    assert (log + events)[..k] == log[..k];
  }

  lemma InstallKeepsFold(w: World, tid: nat)
    requires FoldOk(w) && IsPlanned(w, tid)
    ensures FoldOk(AfterInstall(w, tid))
  {
    if Accepts(w, tid) { ApplyAllConcat(None, w.bridge.log, PlanOf(w, tid).events); }
  }

  lemma InstallKeepsRows(w: World, tid: nat)
    requires RowsOk(w) && IsPlanned(w, tid)
    ensures RowsOk(AfterInstall(w, tid))
  {
    if Accepts(w, tid) {
      var v, events := AfterInstall(w, tid), PlanOf(w, tid).events;
      WasSurvives(w.bridge.log, events, w.mark, LastState(w.bridge.rows));
      forall t | IsCloned(v, t) ensures Was(v.bridge.log, v.callers[t].phase.at, v.callers[t].phase.row) {
        assert IsCloned(w, t);
        WasSurvives(w.bridge.log, events, w.callers[t].phase.at, w.callers[t].phase.row);
      }
    }
  }

  lemma InstallKeepsPlans(w: World, tid: nat)
    requires PlansOk(w) && IsPlanned(w, tid)
    ensures PlansOk(AfterInstall(w, tid))
  {
    var v := AfterInstall(w, tid);
    forall t | IsPlanned(v, t) ensures exists k :: Was(v.bridge.log, k, v.callers[t].phase.snapshot) {
      assert IsPlanned(w, t);
      var k :| Was(w.bridge.log, k, w.callers[t].phase.snapshot);
      if Accepts(w, tid) { WasSurvives(w.bridge.log, PlanOf(w, tid).events, k, w.callers[t].phase.snapshot); }
    }
  }

  lemma InstallKeepsIds(w: World, tid: nat)
    requires IdsOk(w) && IsPlanned(w, tid)
    ensures IdsOk(AfterInstall(w, tid))
  {
    var v := AfterInstall(w, tid);
    assert forall t :: Claimed(v, t) == if t == tid then None else Claimed(w, t);
    if Accepts(w, tid) {
      var events := PlanOf(w, tid).events;
      PlanCreates(w.bridge.threadId, w.callers[tid].phase.snapshot, w.callers[tid].req);
      DistinctGrows(w.bridge.log, events, Claimed(w, tid));
      var log := v.bridge.log;
      forall i | 0 <= i < |log| && log[i].kind.Created? ensures log[i].kind.goal.goalId in v.used {
        assert HoldsId(log, log[i].kind.goal.goalId);
      }
    }
  }

  lemma CrashKeeps(w: World)
    requires Sound(w)
    ensures Sound(After(w, Crash))
  {
    var log := w.bridge.log;
    var cut := log[..w.mark];
    assert cut[..w.mark] == cut;
  }

  lemma ReadKeeps(w: World, tid: nat, req: Request)
    requires Sound(w) && Enabled(w, Read(tid, req))
    ensures Sound(After(w, Read(tid, req)))
  {
    var v, log := After(w, Read(tid, req)), w.bridge.log;
    assert log[..|log|] == log;
    assert Was(log, |log|, w.bridge.current);
    assert forall t :: t != tid ==> Claimed(v, t) == Claimed(w, t);
    assert forall t :: IsCloned(v, t) <==> IsCloned(w, t);
    assert Claimed(v, tid) == NewId(req);
  }

  /** Nothing installed, nothing planned and no id claimed or released. */
  lemma SamePlans(w: World, v: World)
    requires IdsOk(w) && PlansOk(w) && v.bridge.log == w.bridge.log && v.used == w.used
    requires forall t :: IsPlanned(v, t) || IsPlanned(w, t) ==> t in w.callers && t in v.callers && v.callers[t] == w.callers[t]
    ensures IdsOk(v) && PlansOk(v)
  {
    assert forall t :: IsPlanned(v, t) <==> IsPlanned(w, t);
    assert forall t :: Claimed(v, t) == Claimed(w, t);
  }

  lemma CloneKeepsRows(w: World, tid: nat)
    requires FoldOk(w) && RowsOk(w) && Enabled(w, Clone(tid))
    ensures RowsOk(After(w, Clone(tid)))
  {
    var v, log := After(w, Clone(tid)), w.bridge.log;
    assert log[..|log|] == log;
    assert Was(log, |log|, w.bridge.current);
    forall t | IsCloned(v, t) ensures Was(log, v.callers[t].phase.at, v.callers[t].phase.row) {
      if t != tid { assert IsCloned(w, t); }
    }
  }

  /** Moves past the install change neither log nor goal, and plan nothing. */
  lemma TailKeeps(w: World, m: Move)
    requires Sound(w) && Enabled(w, m) && (m.Clone? || m.Route? || m.Store? || m.Disarm?)
    ensures Sound(After(w, m))
  {
    SamePlans(w, After(w, m));
    match m {
      case Clone(tid) => CloneKeepsRows(w, tid);
      case Route(tid) =>
      case Store(tid) =>
      case Disarm => assert forall t :: IsCloned(After(w, m), t) <==> IsCloned(w, t);
    }
  }

  lemma MoveKeeps(w: World, m: Move)
    requires Sound(w) && Enabled(w, m)
    ensures Sound(After(w, m))
  {
    match m {
      case Read(tid, req) => ReadKeeps(w, tid, req);
      case Crash => CrashKeeps(w);
      case Install(tid) =>
        InstallKeepsFold(w, tid);
        InstallKeepsRows(w, tid);
        InstallKeepsIds(w, tid);
        InstallKeepsPlans(w, tid);
      case _ => TailKeeps(w, m);
    }
  }

  lemma StartSound(threadId: string)
    ensures Sound(Start(threadId))
  {
    assert Was(Start(threadId).bridge.log, 0, None);
  }

  /** In every interleaving the fold cache is the strict fold of the surviving history, creation ids are
      distinct, and every snapshot planned on, every clone under way and the last row are states the goal
      once had. */
  lemma {:induction false} PlayKeeps(w: World, moves: seq<Move>)
    requires Sound(w) && ValidMoves(w, moves)
    ensures Sound(Play(w, moves))
    decreases |moves|
  {
    if moves == [] {
    } else {
      MoveKeeps(w, moves[0]);
      PlayKeeps(After(w, moves[0]), moves[1..]);
    }
  }
}
