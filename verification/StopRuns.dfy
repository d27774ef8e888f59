/** What a stop and a settlement do when nothing comes in between, and that the stop owner cancels first, then
    calls the hook, and only then settles the task, whatever comes in between. */
module StopRuns {
  import opened Wrappers
  import opened BackgroundTask
  import opened StopProtocol

  // ----- one thread alone

  function StepsLeft(pc: Pc): nat {
    match pc
    case Checking(_) => 8
    case Beginning(_) => 7
    case Cancelling(_) => 6
    case Hooking(_) => 5
    case Pushing(_, _) => 4
    case Notifying(_) => 3
    case Emitting(_) => 2
    case Subscribing => 2
    case Testing(_) => 1
    case Sleeping(_) => 0
    case Finished(_) => 0
  }

  /** The thread's own steps until it is done or asleep. */
  function RunAlone(w: World, t: nat): World
    decreases if t in w.pcs then StepsLeft(w.pcs[t]) else 0
  {
    if t !in w.pcs || StepsLeft(w.pcs[t]) == 0 then w else RunAlone(Step(w, t), t)
  }

  lemma ToTo(w: World, t: nat, a: Pc, b: Pc)
    ensures To(To(w, t, a), t, b) == To(w, t, b)
  {
    assert w.pcs[t := a][t := b] == w.pcs[t := b];
  }

  /** One step of a thread that changes the task from `w` to `v`. */
  lemma RunsOn(w: World, t: nat, pc: Pc, v: World, next: Pc)
    requires StepsLeft(pc) > 0 && Step(To(w, t, pc), t) == To(To(v, t, pc), t, next)
    ensures RunAlone(To(w, t, pc), t) == RunAlone(To(v, t, next), t)
  {
    ToTo(v, t, pc, next);
  }

  /** What the owner's settlement makes of the task. */
  function AfterOwner(w: World, t: nat, terminal: TaskStatus): World {
    To(w, t, Finished(true)).(
      status := terminal, cancelled := true, hooks := w.hooks + if w.hasHook then 1 else 0,
      notifications := w.notifications + 1, transitions := w.transitions + 1,
      owner := Some(t), owners := w.owners + 1, emitted := w.emitted + [terminal])
  }

  /** The first stop of a running task cancels it, calls its hook if it has one, settles it with the stop's own
      status, wakes the waiters and sends that status; a stop of a stopping task falls asleep, and one of a
      terminal task does nothing. */
  lemma SoloStop(w: World, t: nat, terminal: TaskStatus)
    requires t !in w.pcs && (terminal == Stopped || terminal == SessionEnded)
    ensures Enabled(w, StartStop(t, terminal))
    ensures var v := RunAlone(After(w, StartStop(t, terminal)), t);
            && (w.status.IsTerminal() ==> v == To(w, t, Finished(true)))
            && (w.status == Stopping ==> v == To(w, t, Sleeping(w.notifications)))
            && (w.status == Running ==> v == AfterOwner(w, t, terminal))
  {
    if w.status == Running {
      OwnerRunsOut(w, t, terminal);
    } else if w.status == Stopping {
      WaiterRunsOut(w, t, terminal);
    } else {
      RunsOn(w, t, Checking(terminal), w, Finished(true));
    }
  }

  lemma WaiterRunsOut(w: World, t: nat, terminal: TaskStatus)
    requires w.status == Stopping
    ensures RunAlone(To(w, t, Checking(terminal)), t) == To(w, t, Sleeping(w.notifications))
  {
    RunsOn(w, t, Checking(terminal), w, Beginning(terminal));
    RunsOn(w, t, Beginning(terminal), w, Subscribing);
    RunsOn(w, t, Subscribing, w, Testing(w.notifications));
    RunsOn(w, t, Testing(w.notifications), w, Sleeping(w.notifications));
  }

  lemma OwnerRunsOut(w: World, t: nat, terminal: TaskStatus)
    requires w.status == Running && terminal.IsTerminal()
    ensures RunAlone(To(w, t, Checking(terminal)), t) == AfterOwner(w, t, terminal)
  {
    var owned := w.(status := Stopping, owner := Some(t), owners := w.owners + 1);
    RunsOn(w, t, Checking(terminal), w, Beginning(terminal));
    RunsOn(w, t, Beginning(terminal), owned, Cancelling(terminal));
    CancelRunsOut(owned, t, terminal);
  }

  lemma CancelRunsOut(w: World, t: nat, terminal: TaskStatus)
    requires terminal.IsTerminal() && !w.status.IsTerminal()
    ensures RunAlone(To(w, t, Cancelling(terminal)), t)
            == Settled(w.(cancelled := true, hooks := w.hooks + if w.hasHook then 1 else 0), t, terminal, true)
  {
    var cancelled := w.(cancelled := true);
    RunsOn(w, t, Cancelling(terminal), cancelled, Hooking(terminal));
    var hooked := cancelled.(hooks := w.hooks + if w.hasHook then 1 else 0);
    RunsOn(cancelled, t, Hooking(terminal), hooked, Pushing(terminal, true));
    PushRunsOut(hooked, t, terminal, true);
  }

  /** A settled task. */
  function Settled(w: World, t: nat, terminal: TaskStatus, fromStop: bool): World {
    To(w, t, Finished(fromStop)).(
      status := terminal, transitions := w.transitions + 1, notifications := w.notifications + 1,
      emitted := w.emitted + [terminal])
  }

  lemma PushRunsOut(w: World, t: nat, terminal: TaskStatus, fromStop: bool)
    requires terminal.IsTerminal() && !w.status.IsTerminal()
    ensures RunAlone(To(w, t, Pushing(terminal, fromStop)), t) == Settled(w, t, terminal, fromStop)
  {
    var pushed := w.(status := terminal, transitions := w.transitions + 1);
    RunsOn(w, t, Pushing(terminal, fromStop), pushed, Notifying(fromStop));
    NotifyRunsOut(pushed, t, fromStop);
  }

  lemma NotifyRunsOut(w: World, t: nat, fromStop: bool)
    ensures RunAlone(To(w, t, Notifying(fromStop)), t)
            == To(w, t, Finished(fromStop)).(notifications := w.notifications + 1, emitted := w.emitted + [w.status])
  {
    var notified := w.(notifications := w.notifications + 1);
    RunsOn(w, t, Notifying(fromStop), notified, Emitting(fromStop));
    RunsOn(notified, t, Emitting(fromStop), Emit(notified), Finished(fromStop));
  }

  /** A settlement of a task that is not terminal gives it its own status, wakes the waiters and sends it; one of a
      terminal task only sends the status that stands. */
  lemma SoloSettle(w: World, t: nat, terminal: TaskStatus)
    requires t !in w.pcs && terminal.IsTerminal()
    ensures Enabled(w, StartSettle(t, terminal))
    ensures RunAlone(After(w, StartSettle(t, terminal)), t) ==
              if w.status.IsTerminal() then To(w, t, Finished(false)).(emitted := w.emitted + [w.status])
              else Settled(w, t, terminal, false)
  {
    if w.status.IsTerminal() {
      RunsOn(w, t, Pushing(terminal, false), w, Emitting(false));
      RunsOn(w, t, Emitting(false), Emit(w), Finished(false));
    } else {
      PushRunsOut(w, t, terminal, false);
    }
  }

  /** A waiter that is woken under a terminal status returns; under another one it falls asleep again. */
  lemma WokenWaiterRunsOut(w: World, t: nat, ticket: nat)
    requires ticket < w.notifications
    ensures Enabled(To(w, t, Sleeping(ticket)), Advance(t))
    ensures RunAlone(Step(To(w, t, Sleeping(ticket)), t), t)
            == To(w, t, if w.status.IsTerminal() then Finished(true) else Sleeping(w.notifications))
  {
    ToTo(w, t, Sleeping(ticket), Subscribing);
    RunsOn(w, t, Subscribing, w, Testing(w.notifications));
    RunsOn(w, t, Testing(w.notifications), w, if w.status.IsTerminal() then Finished(true) else Sleeping(w.notifications));
  }

  /** A sleeper runs again exactly when a notification came after it subscribed; every other thread that is not
      done can always run. */
  lemma SleepersWaitForANotification(w: World, t: nat)
    requires t in w.pcs
    ensures w.pcs[t].Sleeping? ==> (Enabled(w, Advance(t)) <==> w.notifications > w.pcs[t].ticket)
    ensures !w.pcs[t].Sleeping? ==> (Enabled(w, Advance(t)) <==> !w.pcs[t].Finished?)
  {
  }

  // ----- cancel, then hook, then settle

  /** Where the owner stands tells exactly what has been done: nothing before its cancel, the cancel before its
      hook, and both from then on, the hook once if there is one. */
  predicate OwnerInOrder(w: World) {
    match w.owner
    case None => !w.cancelled && w.hooks == 0
    case Some(t) =>
      t in w.pcs &&
      match w.pcs[t]
      case Cancelling(_) => !w.cancelled && w.hooks == 0
      case Hooking(_) => w.cancelled && w.hooks == 0
      case Pushing(_, fromStop) => fromStop && BothDone(w)
      case Notifying(fromStop) => fromStop && BothDone(w)
      case Emitting(fromStop) => fromStop && BothDone(w)
      case Finished(fromStop) => fromStop && BothDone(w)
      case _ => false
  }

  predicate BothDone(w: World) {
    w.cancelled && w.hooks == if w.hasHook then 1 else 0
  }

  lemma OwnerMoves(w: World, t: nat)
    requires w.owner == Some(t) && OwnerInOrder(w) && Enabled(w, Advance(t)) && !w.status.Running?
    ensures OwnerInOrder(Step(w, t))
  {
  }

  lemma OtherMoves(w: World, t: nat)
    requires w.owner != Some(t) && OwnerInOrder(w) && Ownership(w) && Enabled(w, Advance(t)) && PcOk(w, t, w.pcs[t])
    ensures OwnerInOrder(Step(w, t))
  {
  }

  lemma MoveInOrder(w: World, m: Move)
    requires Sound(w) && OwnerInOrder(w) && Enabled(w, m)
    ensures OwnerInOrder(After(w, m)) && After(w, m).hasHook == w.hasHook
  {
    if m.Advance? {
      assert PcOk(w, m.t, w.pcs[m.t]);
      if w.owner == Some(m.t) { OwnerMoves(w, m.t); } else { OtherMoves(w, m.t); }
    }
  }

  lemma {:induction false} PlayInOrder(w: World, moves: seq<Move>)
    requires Sound(w) && OwnerInOrder(w) && ValidMoves(w, moves)
    ensures OwnerInOrder(Play(w, moves)) && Play(w, moves).hasHook == w.hasHook
    decreases |moves|
  {
    if moves == [] {
    } else {
      MoveInOrder(w, moves[0]);
      MoveKeeps(w, moves[0]);
      PlayInOrder(After(w, moves[0]), moves[1..]);
    }
  }

  /** Over every interleaving the task is cancelled exactly once its owner is past the cancel, the hook is called
      once, after that, exactly if there is one, and a task nobody stops is neither cancelled nor hooked. */
  lemma OwnerCancelsThenHooks(hasHook: bool, moves: seq<Move>)
    requires ValidMoves(Start(hasHook), moves)
    ensures var w := Play(Start(hasHook), moves);
            && OwnerInOrder(w)
            && (!hasHook ==> w.hooks == 0)
            && (w.hooks > 0 ==> w.cancelled)
            && (forall t :: t in w.pcs && w.owner == Some(t) && w.pcs[t].Finished? ==>
                  w.cancelled && w.hooks == if hasHook then 1 else 0)
  {
    PlayInOrder(Start(hasHook), moves);
  }
}
