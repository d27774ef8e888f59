/** The stop protocol of one task: stops, settlements and sampled snapshots by any number of threads.
    Each lock-held section, each notification and each hook call is one atomic move. */
module StopProtocol {
  import opened Wrappers
  import opened BackgroundTask

  /** Where a thread stands. A waiter's ticket is the notification count when it subscribed: the
      notification it sleeps for is any later one. `fromStop` tells the stop path's push from a
      producer's settlement. */
  datatype Pc =
    | Checking(terminal: TaskStatus)
    | Beginning(terminal: TaskStatus)
    | Cancelling(terminal: TaskStatus)
    | Hooking(terminal: TaskStatus)
    | Pushing(terminal: TaskStatus, fromStop: bool)
    | Notifying(fromStop: bool)
    | Emitting(fromStop: bool)
    | Subscribing
    | Testing(ticket: nat)
    | Sleeping(ticket: nat)
    | Finished(fromStop: bool)

  /** `notifications`, `transitions`, `owner`, `hooks` and `emitted` record what has happened:
      notify calls, moves into a terminal status, the stop owner, hook calls and sent snapshots. */
  datatype World = World(
    status: TaskStatus,
    cancelled: bool,
    hasHook: bool,
    notifications: nat,
    pcs: map<nat, Pc>,
    transitions: nat,
    owner: Option<nat>,
    owners: nat,
    hooks: nat,
    emitted: seq<TaskStatus>)

  datatype Move =
    | StartStop(t: nat, terminal: TaskStatus)
    | StartSettle(t: nat, terminal: TaskStatus)
    | Advance(t: nat)
    | Sample

  predicate CanAdvance(w: World, pc: Pc) {
    match pc
    case Sleeping(ticket) => ticket < w.notifications
    case Finished(_) => false
    case _ => true
  }

  predicate Enabled(w: World, m: Move) {
    match m
    case StartStop(t, terminal) => t !in w.pcs && (terminal.Stopped? || terminal.SessionEnded?)
    case StartSettle(t, terminal) => t !in w.pcs && terminal.IsTerminal()
    case Advance(t) => t in w.pcs && CanAdvance(w, w.pcs[t])
    case Sample => true
  }

  function To(w: World, t: nat, pc: Pc): World {
    w.(pcs := w.pcs[t := pc])
  }

  function Emit(w: World): World {
    w.(emitted := w.emitted + [w.status])
  }

  function Step(w: World, t: nat): World
    requires Enabled(w, Advance(t))
  {
    match w.pcs[t]
    case Checking(terminal) => To(w, t, if w.status.IsTerminal() then Finished(true) else Beginning(terminal))
    case Beginning(terminal) =>
      if w.status.Running?
      then To(w.(status := Stopping, owner := Some(t), owners := w.owners + 1), t, Cancelling(terminal))
      else To(w, t, Subscribing)
    case Cancelling(terminal) => To(w.(cancelled := true), t, Hooking(terminal))
    case Hooking(terminal) => To(w.(hooks := if w.hasHook then w.hooks + 1 else w.hooks), t, Pushing(terminal, true))
    case Pushing(terminal, fromStop) =>
      if !w.status.IsTerminal()
      then To(w.(status := terminal, transitions := w.transitions + 1), t, Notifying(fromStop))
      else To(w, t, if fromStop then Finished(true) else Emitting(false))
    case Notifying(fromStop) => To(w.(notifications := w.notifications + 1), t, Emitting(fromStop))
    case Emitting(fromStop) => To(Emit(w), t, Finished(fromStop))
    case Subscribing => To(w, t, Testing(w.notifications))
    case Testing(ticket) => To(w, t, if w.status.IsTerminal() then Finished(true) else Sleeping(ticket))
    case Sleeping(_) => To(w, t, Subscribing)
    case Finished(_) => w
  }

  function After(w: World, m: Move): World
    requires Enabled(w, m)
  {
    match m
    case StartStop(t, terminal) => To(w, t, Checking(terminal))
    case StartSettle(t, terminal) => To(w, t, Pushing(terminal, false))
    case Advance(t) => Step(w, t)
    case Sample => Emit(w)
  }

  predicate ValidMoves(w: World, moves: seq<Move>)
    decreases |moves|
  {
    moves != [] ==> Enabled(w, moves[0]) && ValidMoves(After(w, moves[0]), moves[1..])
  }

  function Play(w: World, moves: seq<Move>): World
    requires ValidMoves(w, moves)
    decreases |moves|
  {
    if moves == [] then w else Play(After(w, moves[0]), moves[1..])
  }

  function Start(hasHook: bool): World {
    World(Running, false, hasHook, 0, map[], 0, None, 0, 0, [])
  }

  // ----- the invariant

  function Rank(s: TaskStatus): nat {
    if s.Running? then 0 else if s.Stopping? then 1 else 2
  }

  /** A status may be followed by `next`: never backwards, and nothing after a terminal one but itself. */
  predicate Follows(s: TaskStatus, next: TaskStatus) {
    Rank(s) <= Rank(next) && (s.IsTerminal() ==> next == s)
  }

  predicate EmittedInOrder(w: World) {
    && (forall i, j :: 0 <= i < j < |w.emitted| ==> Follows(w.emitted[i], w.emitted[j]))
    && (forall i :: 0 <= i < |w.emitted| ==> Follows(w.emitted[i], w.status))
  }

  /** What a thread's position says about the task. */
  predicate PcOk(w: World, t: nat, pc: Pc) {
    match pc
    case Checking(terminal) => terminal.IsTerminal()
    case Beginning(terminal) => terminal.IsTerminal()
    case Cancelling(terminal) => terminal.IsTerminal() && w.owner == Some(t) && w.hooks == 0
    case Hooking(terminal) => terminal.IsTerminal() && w.owner == Some(t) && w.hooks == 0
    case Pushing(terminal, fromStop) => terminal.IsTerminal() && (fromStop ==> w.owner == Some(t))
    case Notifying(_) => w.status.IsTerminal()
    case Emitting(_) => w.status.IsTerminal()
    case Finished(_) => w.status.IsTerminal()
    case Subscribing => true
    case Testing(ticket) => ticket <= w.notifications
    case Sleeping(ticket) => ticket <= w.notifications
  }

  predicate SomeoneNotifies(w: World) {
    exists t :: t in w.pcs && w.pcs[t].Notifying?
  }

  /** A sleeper under a terminal status is already woken, or the thread that settled the task has its
      notification still to send. */
  predicate NoLostWakeup(w: World) {
    w.status.IsTerminal() && !SomeoneNotifies(w) ==>
      forall t :: t in w.pcs && w.pcs[t].Sleeping? ==> w.pcs[t].ticket < w.notifications
  }

  predicate Ownership(w: World) {
    && w.owners == (if w.owner.Some? then 1 else 0)
    && w.hooks <= w.owners
    && (w.status.Running? ==> w.owner.None?)
    && (w.owner.None? ==> !w.status.Stopping?)
  }

  predicate Sound(w: World) {
    && w.transitions == (if w.status.IsTerminal() then 1 else 0)
    && Ownership(w)
    && (forall t :: t in w.pcs ==> PcOk(w, t, w.pcs[t]))
    && NoLostWakeup(w)
    && EmittedInOrder(w)
  }

  /** One thread's step changes status only forward. */
  lemma StepFollows(w: World, t: nat)
    requires Sound(w) && Enabled(w, Advance(t))
    ensures Follows(w.status, Step(w, t).status)
    ensures EmittedInOrder(Step(w, t))
  {
    assert PcOk(w, t, w.pcs[t]);
  }

  lemma OwnPcKept(w: World, t: nat)
    requires Enabled(w, Advance(t)) && PcOk(w, t, w.pcs[t]) && Ownership(w)
    ensures PcOk(Step(w, t), t, Step(w, t).pcs[t])
  {
    match w.pcs[t] {
      case Beginning(terminal) =>
      case Hooking(terminal) =>
      case Pushing(terminal, fromStop) =>
      case _ =>
    }
  }

  /** Another thread's step leaves what this thread's position says true. */
  lemma OtherPcKept(w: World, t: nat, u: nat)
    requires Enabled(w, Advance(t)) && PcOk(w, t, w.pcs[t]) && Ownership(w)
    requires u != t && u in w.pcs && PcOk(w, u, w.pcs[u])
    ensures PcOk(Step(w, t), u, w.pcs[u])
  {
  }

  lemma StepKeepsPcs(w: World, t: nat)
    requires Enabled(w, Advance(t)) && Ownership(w)
    requires forall u :: u in w.pcs ==> PcOk(w, u, w.pcs[u])
    ensures forall u :: u in Step(w, t).pcs ==> PcOk(Step(w, t), u, Step(w, t).pcs[u])
  {
    PcsAfter(w, t);
    forall u | u in Step(w, t).pcs ensures PcOk(Step(w, t), u, Step(w, t).pcs[u]) {
      if u == t { OwnPcKept(w, t); } else { OtherPcKept(w, t, u); }
    }
  }

  lemma PcsAfter(w: World, t: nat)
    requires Enabled(w, Advance(t))
    ensures Step(w, t).pcs == w.pcs[t := Step(w, t).pcs[t]]
    ensures Step(w, t).notifications == w.notifications + if w.pcs[t].Notifying? then 1 else 0
    ensures Step(w, t).status.IsTerminal() && !w.status.IsTerminal() ==> Step(w, t).pcs[t].Notifying? || !PcOk(w, t, w.pcs[t])
    ensures Step(w, t).pcs[t].Sleeping? ==> !Step(w, t).status.IsTerminal()
  {
  }

  lemma StepKeepsWakeups(w: World, t: nat)
    requires Enabled(w, Advance(t)) && NoLostWakeup(w)
    requires forall u :: u in w.pcs ==> PcOk(w, u, w.pcs[u])
    ensures NoLostWakeup(Step(w, t))
  {
    var v := Step(w, t);
    PcsAfter(w, t);
    assert PcOk(w, t, w.pcs[t]);
    if v.status.IsTerminal() && !SomeoneNotifies(v) {
      forall u | u in v.pcs && v.pcs[u].Sleeping? ensures v.pcs[u].ticket < v.notifications {
        assert u != t && PcOk(w, u, w.pcs[u]);
        if !w.pcs[t].Notifying? { AlreadyWoken(w, v, t, u); }
      }
    }
  }

  lemma AlreadyWoken(w: World, v: World, t: nat, u: nat)
    requires NoLostWakeup(w) && w.status.IsTerminal()
    requires t in w.pcs && !w.pcs[t].Notifying? && t in v.pcs && v.pcs == w.pcs[t := v.pcs[t]]
    requires !SomeoneNotifies(v) && u in w.pcs && w.pcs[u].Sleeping?
    ensures w.pcs[u].ticket < w.notifications
  {
    if SomeoneNotifies(w) { StillNotifies(w, v, t); }
  }

  lemma StillNotifies(w: World, v: World, t: nat)
    requires SomeoneNotifies(w) && t in v.pcs && v.pcs == w.pcs[t := v.pcs[t]]
    requires t in w.pcs ==> !w.pcs[t].Notifying?
    ensures SomeoneNotifies(v)
  {
    var n :| n in w.pcs && w.pcs[n].Notifying?;
    assert v.pcs[n].Notifying?;
  }

  lemma MoveKeeps(w: World, m: Move)
    requires Sound(w) && Enabled(w, m)
    ensures Sound(After(w, m))
  {
    match m {
      case Advance(t) =>
        assert PcOk(w, t, w.pcs[t]);
        StepFollows(w, t);
        StepKeepsPcs(w, t);
        StepKeepsWakeups(w, t);
      case Sample =>
      case StartStop(t, terminal) => StartKeeps(w, t, Checking(terminal));
      case StartSettle(t, terminal) => StartKeeps(w, t, Pushing(terminal, false));
    }
  }

  lemma StartKeeps(w: World, t: nat, pc: Pc)
    requires Sound(w) && t !in w.pcs && PcOk(w, t, pc) && !pc.Sleeping? && !pc.Notifying?
    ensures Sound(To(w, t, pc))
  {
    var v := To(w, t, pc);
    assert forall u :: u in w.pcs ==> v.pcs[u] == w.pcs[u];
    if SomeoneNotifies(w) { StillNotifies(w, v, t); }
  }

  lemma {:induction false} PlayKeeps(w: World, moves: seq<Move>)
    requires Sound(w) && ValidMoves(w, moves)
    ensures Sound(Play(w, moves))
    decreases |moves|
  {
    if moves == [] {
    } else {
      MoveKeeps(w, moves[0]);
      PlayKeeps(After(w, moves[0]), moves[1..]);
    }
  }

  /** Over every interleaving: at most one transition into a terminal status and exactly one once the
      task is terminal, at most one stop owner and one hook call, no stop returns before the task is
      terminal, and snapshots never go backwards nor change after a terminal one. */
  lemma StopProtocolIsSafe(hasHook: bool, moves: seq<Move>)
    requires ValidMoves(Start(hasHook), moves)
    ensures var w := Play(Start(hasHook), moves);
            && w.transitions <= 1 && (w.status.IsTerminal() <==> w.transitions == 1)
            && w.owners <= 1 && w.hooks <= w.owners
            && (forall t :: t in w.pcs && w.pcs[t].Finished? ==> w.status.IsTerminal())
            && (forall i, j :: 0 <= i < j < |w.emitted| ==> Follows(w.emitted[i], w.emitted[j]))
  {
    PlayKeeps(Start(hasHook), moves);
    var w := Play(Start(hasHook), moves);
    forall t | t in w.pcs && w.pcs[t].Finished? ensures w.status.IsTerminal() { assert PcOk(w, t, w.pcs[t]); }
  }

  /** Steps a waiter is away from its return. */
  function Distance(pc: Pc): nat {
    match pc
    case Sleeping(_) => 3
    case Subscribing => 2
    case Testing(_) => 1
    case _ => 0
  }

  predicate Waits(w: World, t: nat) {
    t in w.pcs && (w.pcs[t].Sleeping? || w.pcs[t].Subscribing? || w.pcs[t].Testing? || w.pcs[t].Finished?)
  }

  /** The task is terminal and the notification of its settling thread is out. */
  predicate Announced(w: World) {
    Sound(w) && w.status.IsTerminal() && !SomeoneNotifies(w)
  }

  lemma WaiterStep(w: World, m: Move, t: nat)
    requires Announced(w) && Waits(w, t) && Enabled(w, m)
    ensures !w.pcs[t].Finished? ==> Enabled(w, Advance(t))
    ensures var v := After(w, m);
            && Announced(v) && Waits(v, t)
            && Distance(v.pcs[t]) + (if m == Advance(t) then 1 else 0) == Distance(w.pcs[t])
  {
    MoveKeeps(w, m);
    if m.Advance? {
      PcsAfter(w, m.t);
      StepFollows(w, m.t);
    }
  }

  function StepsOf(moves: seq<Move>, t: nat): nat {
    if moves == [] then 0 else (if moves[0] == Advance(t) then 1 else 0) + StepsOf(moves[1..], t)
  }

  /** No waiter stays asleep: once the settlement is announced a waiter that has not returned can always
      run, and under every schedule exactly its remaining at most three steps bring it to its return. */
  lemma {:induction false} NoWaiterStaysAsleep(w: World, moves: seq<Move>, t: nat)
    requires Announced(w) && Waits(w, t) && ValidMoves(w, moves)
    ensures var v := Play(w, moves);
            && Announced(v) && Waits(v, t)
            && Distance(v.pcs[t]) + StepsOf(moves, t) == Distance(w.pcs[t]) <= 3
            && (v.pcs[t].Finished? <==> StepsOf(moves, t) == Distance(w.pcs[t]))
            && (!v.pcs[t].Finished? ==> Enabled(v, Advance(t)))
    decreases |moves|
  {
    if moves == [] {
      WaiterStep(w, Sample, t);
    } else {
      WaiterStep(w, moves[0], t);
      NoWaiterStaysAsleep(After(w, moves[0]), moves[1..], t);
    }
  }

  /** A terminal status is final: nothing interleaved changes it. */
  lemma {:induction false} TerminalIsFinal(w: World, moves: seq<Move>)
    requires Sound(w) && w.status.IsTerminal() && ValidMoves(w, moves)
    ensures Play(w, moves).status == w.status
    decreases |moves|
  {
    if moves == [] {
    } else {
      MoveKeeps(w, moves[0]);
      if moves[0].Advance? { StepFollows(w, moves[0].t); }
      TerminalIsFinal(After(w, moves[0]), moves[1..]);
    }
  }
}
