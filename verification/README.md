# Verified model of the manox agent core

Manox is a desktop coding agent. This project models, in Dafny, the parts of it whose correctness rests on
state machines, concurrent protocols and text algorithms, and proves what those parts promise: for every
input, every run and every interleaving.

- **Autonomous goals** (`Goal`, `GoalService`, `GoalRuns`, `GoalInterleaving`, `GoalUpdates`,
  `GoalJournalOrder`, `GoalAuthority`, `GoalRestore`, `GoalDriver`, `GoalDriverRuns`). One durable goal per thread, folded strictly from events. `GoalBridge` is its single
  writer: it validates each batch against the fold, routes one full-state journal row per accepted batch and
  holds the process-local `armed` authority. The driver reserves, runs and settles continuation rounds. A
  restart replays the journal, seeds a fresh bridge from the last row and demotes an Active goal to Paused.
  `GoalRuns` treats a request as one step, as a single caller sees it; `GoalInterleaving` cuts it where the
  program's locks do, so callers and crashes interleave between install, clone, route and store.
- **Session leases** (`SessionLease`, `LeaseHandles`, `LeaseProgress`, `LeaseTwins`). Any number of processes and threads acquire per-session write leases
  over flocks and a registry of weak entries; every system call and every registry section is one atomic move.
- **Background tasks** (`BackgroundTask`, `StopProtocol`, `StopRuns`). A status that settles once, a ring with a byte cap
  and an event cap, and the interleavings of stops, settlements, waiters and snapshots.
- **Approvals and replay** (`Replay`, `ApprovalGate`, `GateAnswers`). The gate's live pending map and the fold of the journal
  it leaves behind.
- **Instruction imports** (`ImportExpansion`, `ImportProperties`, `ImportTrust`). The mutually recursive `@path` expander
  with its shared visited set.
- **Sidebar order** (`SidebarOrder`, over `Sorting` and `Lists`). Accounts of explicit order, moved and reconciled.
- **Hyperlinks** (`Bytes`, `Overlap`, `EmptySpans`, `UrlScan`, `PathScan`, `Links`). The two byte scanners and the resolution
  of their overlaps.
- **Prefix-cache gate** (`PrefixGate`, `PrefixLaws`). What each request still replays of the one before it.

Code that changes things in place is modelled by classes and loops, each proved equal to a specification
function; the theorems are about those functions. Clock readings and fresh ids are parameters; the file system,
flocks, notifications and channels are explicit small state; JSON encoding and decoding are parameters.

## Where the code and its documentation differ

The model follows the code.

- `create` is documented to succeed any terminal goal; the fold accepts it only over no goal or a Complete one
  (`GoalRuns.AcceptedExactlyWhenAdmitted`).
- Blocker codes are documented as lower-case kebab; the scan admits upper case after the first letter
  (`Goal.IsKebabCode`, `Goal.KebabAdmitsUpperCase`).
- The transition table lists BudgetLimited to Blocked; the fold refuses it (`GoalRuns.StatusMove`).
- A clear or replace checks the revision but not the rounds, so a round charged between its read and its install
  is dropped; it meets its own snapshot exactly when there was none (`GoalUpdates.NoLostUpdate`,
  `GoalUpdates.ClearMayDropARound`).
- The journal is documented as the durable authority whose last row wins, but a row is cloned and routed after the
  fold lock is released: a clone overtaken by a later row loses accepted events at the next start
  (`GoalJournalOrder.OvertakenCloneLosesARound`; exactly when: `GoalJournalOrder.RowIsCurrentExactlyWhen`,
  `GoalJournalOrder.KeepsUpExactlyWhen`).
- The authority flag is documented as serialized by the fold mutex; it is stored outside it, so a late store can
  arm a stopped goal (`GoalAuthority.LateStoreArmsACompleteGoal`; exactly when:
  `GoalAuthority.JustifiedExactlyWhen`).
- A goal edit may leave more rounds run than the new cap, or an Active goal over its new budget; the exact
  condition is `GoalRuns.EditKeepsHeadroomExactlyWhen`.
- The restart demotion, the block at the round cap and the pause of an aborted round are refused by the fold
  when the clock has regressed; each law states the exact condition.
- A seed that lands on a live, armed bridge may leave it armed over a stopped goal
  (`GoalRuns.SeedKeepsArmedExactlyWhen`).
- `join_live` compares with a disk reading taken before the registry lock; an outdated reading retires a twin
  thread's good lease, and that acquire then reports the session held elsewhere although its own process holds it
  (`SessionLease.JoinRetiresJoinableExactlyWhen`, `LeaseTwins.TwinIsTurnedAway`).
- A settlement that loses still overwrites the exit code and the failure summary
  (`BackgroundTask.Task.ApplySettlement`).
- `consolidate` is documented to prefer URLs over paths; a URL loses to a path that starts earlier, or runs longer
  from the same start, unless an earlier URL has removed that path (`Links.UrlsAndPathsAlternate`,
  `Links.UrlFate`, `Links.PathSwallowsUrl`).
- The prefix gate documents an access-mode change as intended, but its normal form drops only lines that mention
  `permission mode`, while the prompt's line (`crates/manox-agent/src/prompt/templates/system/main.tera.md`, line
  33) reads `Access mode`: a switch is reported as an invalidation (`PrefixGate.ModeSwitchIsReported`; exactly when:
  `PrefixGate.LineChangeIsIntendedExactlyWhen`).
- The line anchor of a path is documented and coded with a branch for `line:col`; behind the last colon that branch
  never runs, the column being a line number behind its own colon (`PathScan.LineAnchorMeans`).
- `reconcile_groups` is documented to append new paths; it puts them first (`SidebarOrder.GroupsReconcile`).

## Model

| member | source | states |
|---|---|---|
| `Goal.FoldGoalEvents` | crates/manox-agent/src/goal.rs:449-463 | the strict scan succeeds exactly when every type column agrees with its payload and the payloads fold from no goal, and then yields that fold |
| `Goal.ApplyAllConcat` | crates/manox-agent/src/goal.rs:243-425 | folding a concatenation is folding the second part from where the first ended, or the first part's refusal |
| `Goal.FoldStep` | crates/manox-agent/src/goal.rs:449-463 | one more event applies to the fold so far, and its refusal is the refusal of the whole stream |
| `Goal.EventAcceptedExactlyWhen` | crates/manox-agent/src/goal.rs:243-437 | the strict fold accepts an event, whoever wrote it, exactly under stated conditions for creations, updates of each kind, rounds and clears |
| `Goal.AcceptedEventMakes` | crates/manox-agent/src/goal.rs:243-425 | what an accepted event makes of the goal, a round field by field up to the saturating sum and the budget flip |
| `Goal.TypeNamesItsKind` | crates/manox-agent/src/goal.rs:158-166 | the type column names the kind of its event |
| `Goal.OtherVersionsAreRefused` | crates/manox-agent/src/goal.rs:243-247 | only version 1 events are folded |
| `Goal.ObjectiveAccepted` | crates/manox-agent/src/goal.rs:465-474 | an objective is accepted exactly when between its blank ends something of at most 4000 characters is left, and that is kept |
| `Goal.IsKebabCode` | crates/manox-agent/src/goal.rs:505-527 | the one-character-memory scan decides exactly: lower-case first letter, then alphanumerics with single inner hyphens |
| `Goal.KebabReads` | crates/manox-agent/src/goal.rs:505-527 | a code is exactly a word of letters and digits with a lower-case first letter, or a code, a hyphen and such a word |
| `Goal.KebabAdmitsUpperCase` | crates/manox-agent/src/goal.rs:490-527 | a code with an upper-case letter that the scan accepts against its documentation |
| `GoalService.GoalBridge.constructor` | crates/manox-agent/src/goal_tools.rs:84-100 | a new bridge holds no goal and no authority over the thread's journal |
| `GoalService.GoalBridge.AppendEvents` | crates/manox-agent/src/goal_tools.rs:210-236 | for a single caller a batch is validated as a whole: accepted, it installs the fold and routes one row; refused, nothing changes |
| `GoalService.GoalBridge.Create` | crates/manox-agent/src/goal_tools.rs:252-282 | new state and result are those of the create request on the old state |
| `GoalService.GoalBridge.Edit` | crates/manox-agent/src/goal_tools.rs:287-322 | new state and result are those of the edit request on the old state |
| `GoalService.GoalBridge.Replace` | crates/manox-agent/src/goal_tools.rs:326-363 | new state and result are those of the atomic clear-then-create on the old state |
| `GoalService.GoalBridge.SetStatus` | crates/manox-agent/src/goal_tools.rs:367-421 | new state and result are those of the status request on the old state |
| `GoalService.GoalBridge.Clear` | crates/manox-agent/src/goal_tools.rs:424-441 | new state and result are those of the clear request; without a goal nothing happens |
| `GoalService.GoalBridge.AccountRound` | crates/manox-agent/src/goal_tools.rs:446-475 | new state and result are those of charging one round on the old state |
| `GoalService.GoalBridge.ModelUpdate` | crates/manox-agent/src/goal_tools.rs:537-584 | the model may only complete, or block after three rounds, through the status path |
| `GoalService.GoalBridge.SeedFromJournal` | crates/manox-agent/src/goal_tools.rs:111-153 | the snapshot replaces the fold cache and an Active one goes through the restart pause |
| `GoalRuns.AcceptedExactlyWhenAdmitted` | crates/manox-agent/src/goal_tools.rs:210-475 | each of the seven requests is accepted exactly when a stated condition on the current goal, the draft, the reason and the clock holds; a refusal changes nothing |
| `GoalRuns.EffectOfAccepted` | crates/manox-agent/src/goal_tools.rs:252-584 | what an accepted request makes of every goal field and of the authority |
| `GoalRuns.LedgerStep` | crates/manox-agent/src/goal.rs:278-409 | one accepted event keeps rounds, revision and clipped token sum equal to the counts of events since the last creation, if an update carries the tokens it found |
| `GoalRuns.PlansCarryTokens` | crates/manox-agent/src/goal_tools.rs:287-421 | every update the bridge plans carries the tokens of its snapshot, the proviso the bare fold does not check |
| `GoalRuns.RunKeeps` | crates/manox-agent/src/goal_tools.rs:195-475 | in every run with restarts: the cache is the last row and the strict fold of the accepted events, the ledger balances, reasons fit statuses, armed implies Active |
| `GoalRuns.RestartRoundTrip` | crates/manox-agent/src/goal_tools.rs:111-153 | after any run a restart gives back the same goal disarmed, an Active one Paused at revision + 1 with definition and accounting kept, and further restarts change nothing; it stays Active exactly when the clock regressed |
| `GoalRuns.StopApplies` | crates/manox-agent/src/goal_tools.rs:367-421 | a pause or block with a valid reason stops and disarms an Active goal exactly when the clock has not regressed |
| `GoalRuns.SeedKeepsArmedExactlyWhen` | crates/manox-agent/src/goal_tools.rs:111-153 | seeding a live bridge keeps armed-implies-Active exactly when it is disarmed, no row exists, or the seeded goal is Active |
| `GoalRuns.CompleteIsSticky` | crates/manox-agent/src/goal.rs:69-81 | over every run without create, replace or clear a Complete goal stays Complete with its identity and accounting |
| `GoalRuns.EditFreeRunsKeepHeadroom` | crates/manox-agent/src/goal.rs:360-409 | in every edit-free run an Active goal is under budget and no goal exceeds its round cap |
| `GoalRuns.EditKeepsHeadroomExactlyWhen` | crates/manox-agent/src/goal_tools.rs:287-322 | an accepted edit keeps that exactly when the new cap covers the rounds run and, if Active, the new budget exceeds the tokens used |
| `GoalRuns.EditCanExceedCap` | crates/manox-agent/src/goal_tools.rs:287-322 | an accepted edit that puts a goal over its cap, from any goal with two rounds run |
| `GoalInterleaving.Pinned` | crates/manox-agent/src/goal.rs:278-409 | between two states of one goal id revision + rounds grows by exactly the number of events, so the pair determines the state |
| `GoalUpdates.NoLostUpdate` | crates/manox-agent/src/goal_tools.rs:217-224 | in every interleaving of reads, installs, clones, routes, stores and crashes an update is installed only onto the snapshot it was built from, a reserved round likewise; a clear or replace meets the same revision and definition, and its own snapshot exactly when the rounds are the same |
| `GoalUpdates.ClearMayDropARound` | crates/manox-agent/src/goal_tools.rs:326-441 | from any Active goal below its cap, the interleaving in which a clear or a replace wipes out a round charged after its read |
| `GoalInterleaving.PlayKeeps` | crates/manox-agent/src/goal_tools.rs:210-236 | every interleaving keeps the cache the fold of the surviving history, creation ids distinct, and every planned snapshot, clone under way and last row a state the goal once had |
| `GoalJournalOrder.RowIsCurrentExactlyWhen` | crates/manox-agent/src/goal_tools.rs:217-234 | in every reachable state the last row is the cache exactly when it was cloned after the last install, or neither the history it knows nor the whole history leaves a goal |
| `GoalJournalOrder.CrashLosesTheUnrouted` | crates/manox-agent/src/goal_tools.rs:217-234 | a crash at any moment brings back the last row and forgets exactly the events installed since it was cloned |
| `GoalJournalOrder.CrashThenPauseIsRestart` | crates/manox-agent/src/goal_tools.rs:111-153 | a crash and the seed's pause together are the single-caller restart over the surviving history |
| `GoalJournalOrder.LoneCallerIsExec` | crates/manox-agent/src/goal_tools.rs:195-475 | with nobody in between, the separate moves of any request make of the bridge what the request does at once for a single caller |
| `GoalJournalOrder.KeepsUpExactlyWhen` | crates/manox-agent/src/goal_tools.rs:224-234 | a move leaves the journal behind for good exactly when it routes a clone overtaken by the row of a later install |
| `GoalJournalOrder.InOrderRunIsDurable` | crates/manox-agent/src/goal_tools.rs:210-236 | in every interleaving without an overtaken clone, whenever no row is owed the last row is the cache and a crash loses nothing |
| `GoalJournalOrder.OvertakenCloneLosesARound` | crates/manox-agent/src/goal_tools.rs:217-234 | from any Active goal, the interleaving whose last row misses an installed round although every row was routed, and the restart without it |
| `GoalJournalOrder.LedgerHoldsUnderInterleaving` | crates/manox-agent/src/goal.rs:392-405 | in every interleaving with crashes at any moment the goal accounts for exactly the surviving rounds, updates and tokens since its creation, and the last row for those it knows |
| `GoalAuthority.JustifiedExactlyWhen` | crates/manox-agent/src/goal_tools.rs:279-280 | a move leaves a stopped goal armed with nobody bound to disarm it exactly when it stores an arming request's authority after the goal stopped and every disarming store was made |
| `GoalAuthority.InTimeRunIsConsistent` | crates/manox-agent/src/goal_tools.rs:418-419 | in every interleaving without such a late store an armed goal is Active whenever no stop is between install and store |
| `GoalAuthority.LateStoreArmsACompleteGoal` | crates/manox-agent/src/goal_tools.rs:279-280 | from any state without a goal, the interleaving of a create and a completion that ends with nobody under way and a Complete goal armed |
| `GoalRestore.ReplayReadsLastRow` | crates/manox-agent/src/replay.rs:172-174 | what replay hands the seed decodes to the last bridge row, an explicit clear included, whatever other entries lie between |
| `GoalRestore.JournalRoundTrip` | crates/manox-agent/src/goal_tools.rs:111-153 | bridge run, journal, replay, decode and seed together obey the restart law |
| `GoalDriver.TranscriptContainsRound` | crates/manox-agent/src/goal_driver.rs:244-264 | true exactly when some message is the goal-round message with this round, goal id and revision |
| `GoalDriver.SumRunTokens` | crates/manox-agent/src/goal_driver.rs:196-210 | the budget tokens of the run's assistant and tool messages without cache reads, none for a failed run |
| `GoalDriver.ChargeOfOne` | crates/manox-agent/src/goal_driver.rs:34-36 | a run of one assistant or tool message is charged input plus cache creation plus output, any other message nothing |
| `GoalDriver.ChargeAdds` | crates/manox-agent/src/goal_driver.rs:196-210 | the charge of a run is the sum of its parts, of a failed or empty one zero |
| `GoalDriver.ChargeIgnoresCacheReads` | crates/manox-agent/src/goal_driver.rs:34-36 | runs that differ only in reported cache reads are charged the same |
| `GoalDriver.MessageNamesItsRound` | crates/manox-agent/src/goal_driver.rs:139-264 | the queued message is recognised for a reserved round exactly when goal, revision and round agree, and no other kind of message is |
| `GoalDriver.RoundDriver.MaybeQueueGoalRound` | crates/manox-agent/src/goal_driver.rs:100-178 | the gate's new state, and the message it queues exactly when it reserves a round |
| `GoalDriver.RoundDriver.SettleGoalRound` | crates/manox-agent/src/goal_driver.rs:183-241 | the settle's new state over bridge, slot and identity |
| `GoalDriver.RoundDriver.GoalHousekeeping` | crates/manox-agent/src/engine/run.rs:568-591 | an abort or failed run disarms before the round in flight settles |
| `GoalDriverRuns.QueuedRoundIsChargeable` | crates/manox-agent/src/goal_driver.rs:107-177 | a queued round names the goal's id, revision and next round, is charged exactly when its message was admitted, and closes the gate |
| `GoalDriverRuns.RoundQueuedExactlyWhen` | crates/manox-agent/src/goal_driver.rs:107-140 | a round is queued exactly when none is reserved, the bridge is armed, the goal is Active and below its cap and no input competes; otherwise the slot stays |
| `GoalDriverRuns.SettleChargesOnceOrDisarms` | crates/manox-agent/src/goal_driver.rs:183-241 | a settle frees the slot and either charges exactly the reserved round with exactly the run's tokens, or leaves the accounting and disarms |
| `GoalDriverRuns.AbortedSettleDisarmsExactlyWhen` | crates/manox-agent/src/goal_driver.rs:191-240 | an aborted settle ends armed exactly when it charged an armed goal that stayed under budget and the clock regressed before the pause |
| `GoalDriverRuns.AbortPausesTheGoal` | crates/manox-agent/src/goal_driver.rs:223-232 | an aborted round that was charged leaves a still Active goal paused with the interruption as its reason |
| `GoalDriverRuns.HousekeepingSettlesTheRound` | crates/manox-agent/src/engine/run.rs:568-591 | housekeeping frees the slot, is the settle when nothing interrupted the run, and charges the round in flight as the settle does |
| `GoalDriverRuns.InterruptedRunEndsDisarmed` | crates/manox-agent/src/engine/run.rs:568-591 | through housekeeping an abort or failed run always ends disarmed, whatever the clock |
| `GoalDriverRuns.EveryDriverRunIsConsistent` | crates/manox-agent/src/goal_driver.rs:100-241 | over every driver run reserved flag, identity and round-in-flight flag agree and armed implies Active |
| `GoalDriverRuns.AtTheCapTheGateBlocks` | crates/manox-agent/src/goal_driver.rs:113-132 | at the cap the gate reserves nothing and blocks and disarms the goal exactly when the clock has not regressed |
| `GoalDriverRuns.HandsOffNeverArms` | crates/manox-agent/src/goal_tools.rs:367-475 | no request but create, replace, edit and resume arms a bridge, lowers the rounds run or changes the cap of an armed goal |
| `GoalDriverRuns.AutonomyIsBounded` | crates/manox-agent/src/goal_driver.rs:100-241 | under any schedule a capped goal nobody creates, edits or resumes reserves at most its remaining rounds |
| `GoalDriverRuns.RestartDisarms` | crates/manox-agent/src/goal_tools.rs:84-153 | a new process starts disarmed with no round in flight |
| `SessionLease.LeaseTable.Join` | crates/manox-agent/src/session_lease.rs:87-104 | joins the live matching entry, retires a live mismatching one, leaves everything else |
| `SessionLease.EveryRunIsSafe` | crates/manox-agent/src/session_lease.rs:87-155 | over every interleaving with crashes and unlinks a lock is held exactly by a live entry or an acquire past its flock, and registries point at their own entries |
| `SessionLease.MutualExclusion` | crates/manox-agent/src/session_lease.rs:114-155 | no two live entries of any processes hold one inode, and no acquire in flight holds the lock of a live entry |
| `SessionLease.QuietRunIsFenced` | crates/manox-agent/src/session_lease.rs:114-155 | with unlinks only between acquires every live entry recorded the inode it locked and what an acquire has learned stays true |
| `SessionLease.HandlesFenceThePath` | crates/manox-agent/src/session_lease.rs:87-155 | then every handle returned holds the lock of the inode now behind its path, and no insert overwrites a joinable entry |
| `LeaseHandles.LockLivesWithItsHandles` | crates/manox-agent/src/session_lease.rs:52-104 | over every run the references to an entry are those returned or cloned and not yet dropped or crashed; while there is one the entry holds the lock of its inode, and else nothing holds a lock in its name |
| `LeaseHandles.HandleFencesUntilDropped` | crates/manox-agent/src/session_lease.rs:52-58 | whatever else runs, an entry with a reference outstanding keeps the lock on the same inode |
| `LeaseProgress.FreeSessionIsAcquired` | crates/manox-agent/src/session_lease.rs:87-155 | a session nobody holds is acquired in six steps, each possible after the one before, and the caller is out with a registered entry that holds the lock of the inode behind the path |
| `LeaseProgress.ReturnedIsOut` | crates/manox-agent/src/session_lease.rs:114-155 | a caller that is handed an entry has left acquire |
| `LeaseProgress.LastDropFrees` | crates/manox-agent/src/session_lease.rs:52-58 | a live entry may be cloned and dropped, and the last drop frees its lock |
| `LeaseProgress.CrashFrees` | crates/manox-agent/src/session_lease.rs:66-76 | a crash at any moment ends the process's threads, registry, entries and locks and changes nothing else |
| `LeaseProgress.TakenLockTurnsAway` | crates/manox-agent/src/session_lease.rs:119-140 | a taken lock turns the caller away for another try or for the last look |
| `LeaseProgress.UnusedMeans` | crates/manox-agent/src/session_lease.rs:52-64 | an inode no lock file, live entry or open descriptor has is free and carries no lock |
| `SessionLease.StaleStays` | crates/manox-agent/src/session_lease.rs:52-64 | an entry whose lock file was unlinked never matches the path again while it lives |
| `SessionLease.StaleIsNeverJoined` | crates/manox-agent/src/session_lease.rs:87-104 | such an entry is never handed out in any continuation |
| `SessionLease.JoinRetiresJoinableExactlyWhen` | crates/manox-agent/src/session_lease.rs:87-104 | a joinable entry is handed out exactly when the caller's disk reading is current, and retired exactly when it is not |
| `LeaseTwins.TwinIsTurnedAway` | crates/manox-agent/src/session_lease.rs:114-155 | one run from boot without unlinks in which a thread's outdated reading retires its twin's lease and its own acquire ends held elsewhere while its process holds the lease |
| `BackgroundTask.NewestIsLongest` | crates/manox-agent/src/background_task.rs:256-281 | what eviction keeps is a suffix of at most 262144 output bytes and 4096 events, and every longer suffix breaks one |
| `BackgroundTask.RingIsMaximalSuffix` | crates/manox-agent/src/background_task.rs:256-313 | after any pushes the ring is a suffix of the history and extending it breaks a cap |
| `BackgroundTask.RingIsNewest` | crates/manox-agent/src/background_task.rs:256-281 | right after an output the ring is the longest suffix of the whole history within both caps, despite terminal records pushed without eviction |
| `BackgroundTask.RingIsConsecutive` | crates/manox-agent/src/background_task.rs:256-313 | sequence numbers in the ring are consecutive and end at the counter |
| `BackgroundTask.Evict` | crates/manox-agent/src/background_task.rs:268-281 | the loop keeps the newest events and an exact byte count; its saturating subtraction never clips |
| `BackgroundTask.Task.PushEvent` | crates/manox-agent/src/background_task.rs:256-281 | one output joins the history, the ring is its newest part, the counters follow |
| `BackgroundTask.Task.PushTerminal` | crates/manox-agent/src/background_task.rs:288-313 | first-wins: only a running or stopping task settles, and its record joins the ring without eviction |
| `BackgroundTask.Task.BeginStopping` | crates/manox-agent/src/background_task.rs:336-350 | ownership exactly for the caller that finds the task running |
| `BackgroundTask.TruncatedIsNearlyWhole` | crates/manox-agent/src/background_task.rs:320-332 | a summary within 2048 bytes is kept; a longer text is cut on a character boundary at most three bytes earlier and marked |
| `BackgroundTask.Task.SetFailureSummary` | crates/manox-agent/src/background_task.rs:320-332 | the truncated summary is recorded and nothing else changes |
| `BackgroundTask.Task.ApplySettlement` | crates/manox-agent/src/background_task.rs:632-657 | an unsettled task becomes Completed, Failed, TimedOut, Stopped or SessionEnded exactly for its kind of settlement and the teardown cause, a settled one keeps its status; exit code and truncated summary are last-wins |
| `StopProtocol.PlayKeeps` | crates/manox-agent/src/background_task.rs:768-813 | every interleaving keeps the protocol invariant: positions, ownership, wakeups and snapshot order |
| `StopProtocol.StopProtocolIsSafe` | crates/manox-agent/src/background_task.rs:768-813 | one transition into a terminal status, one owner, one hook call, no stop returns early, snapshots never go backwards |
| `StopProtocol.NoWaiterStaysAsleep` | crates/manox-agent/src/background_task.rs:352-360 | once the settlement is announced every waiter can run and returns after exactly its remaining at most three steps under any schedule |
| `StopProtocol.TerminalIsFinal` | crates/manox-agent/src/background_task.rs:288-313 | nothing interleaved changes a terminal status |
| `StopRuns.SoloStop` | crates/manox-agent/src/background_task.rs:768-813 | alone, the first stop of a running task cancels, calls the hook, settles with its own status, wakes and sends; one of a stopping task sleeps; one of a terminal task does nothing |
| `StopRuns.SoloSettle` | crates/manox-agent/src/background_task.rs:288-313 | alone, a settlement of an unsettled task gives its status, wakes and sends; of a settled one it only sends |
| `StopRuns.WokenWaiterRunsOut` | crates/manox-agent/src/background_task.rs:352-360 | a woken waiter returns under a terminal status and sleeps again under another |
| `StopRuns.SleepersWaitForANotification` | crates/manox-agent/src/background_task.rs:352-360 | a sleeper runs exactly after a later notification, any other unfinished thread always |
| `StopRuns.OwnerCancelsThenHooks` | crates/manox-agent/src/background_task.rs:768-813 | over every interleaving the owner cancels, then calls the hook once exactly if there is one, then settles; without an owner neither happens |
| `Replay.ReplayThreadState` | crates/manox-agent/src/replay.rs:140-233 | the loop computes the last-wins fold of the chain |
| `Replay.ReplayIsCompositional` | crates/manox-agent/src/replay.rs:140-233 | replaying a concatenation is overlaying the second replay on the first, field by field, tombstones included |
| `Replay.EachFieldIsItsLastEntry` | crates/manox-agent/src/replay.rs:140-233 | each restored field is what the last entry of its kind carries, whatever is interleaved |
| `Replay.EachAnnotationIsItsLastEntry` | crates/manox-agent/src/replay.rs:140-233 | each annotation is the last that sets it or the tombstone of the last that removes it |
| `Replay.ReplayedGoalIsLastRow` | crates/manox-agent/src/replay.rs:172-174 | the restored goal is the last goal row, an absent payload the explicit null |
| `Replay.UnsettledAreTheSurvivors` | crates/manox-agent/src/replay.rs:84-134 | the unsettled list is exactly the requests no later request or decision of their id follows, in order |
| `Replay.UnsettledInteractions` | crates/manox-agent/src/replay.rs:81-135 | the scan over a mixed chain returns those survivors, approvals and questions apart |
| `ApprovalGate.Gate.constructor` | crates/manox-agent/src/approval.rs:87-101 | a gate over an existing chain with nothing parked |
| `ApprovalGate.Gate.RegisterCard` | crates/manox-agent/src/approval.rs:178-189 | a card with a fresh responder replaces any of its id |
| `ApprovalGate.Gate.RegisterCardIfAbsent` | crates/manox-agent/src/approval.rs:197-205 | parks exactly when the id is not parked |
| `ApprovalGate.Gate.DiscardCard` | crates/manox-agent/src/approval.rs:208-215 | removes a parked card with one cancelled row; otherwise nothing |
| `ApprovalGate.Gate.RespondToCard` | crates/manox-agent/src/approval.rs:220-241 | removes a parked card with one verdict row and delivers to its own responder; otherwise nothing |
| `ApprovalGate.Gate.JournalDecision` | crates/manox-agent/src/approval.rs:247-259 | one decision row, only with a sink |
| `ApprovalGate.Gate.ReparkUnsettled` | crates/manox-agent/src/engine/mod.rs:2377-2411 | the loop parks every unsettled row whose id is not parked |
| `ApprovalGate.RequestRoundTrip` | crates/manox-agent/src/replay.rs:84-112 | the fold reads back from a request row exactly the card it was written for |
| `ApprovalGate.GateAndJournalAgree` | crates/manox-agent/src/approval.rs:178-259 | after any run of parks, verdicts, discards, re-opens and restarts the unsettled fold of the journal is the pending map |
| `ApprovalGate.ReparkAdds` | crates/manox-agent/src/approval.rs:197-205 | re-parking keeps every live card with its responder and adds exactly the others |
| `ApprovalGate.RestoreKeepsCards` | crates/manox-agent/src/engine/mod.rs:2377-2411 | after any run a re-open changes no card and a fresh gate re-parked from the journal holds the same cards |
| `ApprovalGate.EveryParkIsDecidedOnce` | crates/manox-agent/src/approval.rs:208-259 | each decision row of any run answers a request nothing before it had settled |
| `ApprovalGate.DeliveryIsFinal` | crates/manox-agent/src/approval.rs:220-241 | what a responder received no later action of any run changes |
| `GateAnswers.AnswerReachesItsCard` | crates/manox-agent/src/approval.rs:220-241 | an answer to a parked card reaches that card's own responder as given, journals one row naming that answer and touches nothing else |
| `GateAnswers.DiscardAnswersNothing` | crates/manox-agent/src/approval.rs:208-215 | a discard delivers nothing and journals one cancelled row |
| `GateAnswers.DeliveredExactlyTheAnswers` | crates/manox-agent/src/approval.rs:220-241 | over every run a responder received a response exactly when some answer with it found its card parked |
| `GateAnswers.DecisionsSayTheAnswers` | crates/manox-agent/src/approval.rs:208-259 | over every run each decision row was written by the answer or discard of the card it names, and says which |
| `ImportExpansion.FindBacktickRunAt` | crates/manox-agent/src/claude_md.rs:585-599 | the index loop computes the run search |
| `ImportExpansion.FindBacktickRunIsFirst` | crates/manox-agent/src/claude_md.rs:585-599 | the search returns the first maximal run of exactly the given length, and nothing exactly when there is none |
| `ImportExpansion.LinesJoin` | crates/manox-agent/src/claude_md.rs:489-521 | splitting into lines loses nothing |
| `ImportExpansion.LinesRead` | crates/manox-agent/src/claude_md.rs:489-521 | a line runs to its newline and holds no other; only the last may lack one |
| `ImportExpansion.FenceMarkerMeans` | crates/manox-agent/src/claude_md.rs:474-482 | a fence marker is a whole run of at least three backticks or tildes behind nothing but blanks |
| `ImportExpansion.TokenReads` | crates/manox-agent/src/claude_md.rs:557-572 | a token runs to the next ASCII blank |
| `ImportExpansion.SlashSeparates` | crates/manox-agent/src/claude_md.rs:620-629 | slashes separate path components and do nothing else |
| `ImportExpansion.TokenLeads` | crates/manox-agent/src/claude_md.rs:613-633 | an absolute token leads from the root, one behind ~/ from the home directory, any other from the importing file's directory, to a canonical regular file |
| `ImportExpansion.ExpandImports` | crates/manox-agent/src/claude_md.rs:489-521 | the line loop with its fence state computes the recursive expansion |
| `ImportExpansion.ExpandLineImports` | crates/manox-agent/src/claude_md.rs:527-582 | the index loop along a line computes the recursive expansion |
| `ImportExpansion.AdvanceAt` | crates/manox-agent/src/claude_md.rs:538-581 | each iteration consumes a code span, a token or one character and makes progress |
| `ImportExpansion.ResolveImport` | crates/manox-agent/src/claude_md.rs:603-667 | resolution with depth, visited and external checks computes the specification |
| `ImportProperties.TextExtends` | crates/manox-agent/src/claude_md.rs:489-667 | every expansion at every depth only adds files not visited before, once each, within the depth limit, and is the identity if it adds none |
| `ImportProperties.ExpandsEachFileOnce` | crates/manox-agent/src/claude_md.rs:268-279 | on every file graph a top-level file expands each canonical file at most once, never itself, at most four hops deep |
| `ImportProperties.ExpandsNothingExactlyWhen` | crates/manox-agent/src/claude_md.rs:489-667 | a top-level file expands nothing exactly when no token outside fences and code spans names a readable, trusted or allowed file other than itself, and its text then comes back unchanged |
| `ImportProperties.UnresolvedIsIdentity` | crates/manox-agent/src/claude_md.rs:489-667 | if no token of the text resolves it comes back unchanged and nothing is recorded |
| `ImportProperties.FencedTextIsVerbatim` | crates/manox-agent/src/claude_md.rs:489-521 | inside a fence everything is copied and nothing resolved up to and including the first closing line, and expansion goes on behind it with an unchanged walk |
| `ImportTrust.OutsideIsReported` | crates/manox-agent/src/claude_md.rs:634-651 | a file outside the working directory and ~/.claude that resolves first at depth below four is recorded, and with externals off neither read nor expanded |
| `ImportTrust.TrustBoundary` | crates/manox-agent/src/claude_md.rs:603-667 | over a whole top-level file, by path prefixes: with externals off only files under the two roots are expanded, none of them is reported, each reported file is reported once, and every top-level token that names a file outside has it reported |
| `ImportProperties.OutsideContentsNeverLeak` | crates/manox-agent/src/claude_md.rs:603-667 | with externals off, output and external list do not depend on contents outside the two roots, told by path prefixes, the top-level file aside |
| `SidebarOrder.MovePermutesOnlyTheRow` | crates/manox-agent/src/sidebar_order.rs:166-184 | a valid move keeps all other rows in order, loses and doubles none, and puts the row last or directly before its anchor |
| `SidebarOrder.RefusedExactlyWhen` | crates/manox-agent/src/sidebar_order.rs:152-162 | a move is refused exactly for an unlisted row or, then, an unlisted anchor |
| `SidebarOrder.InsertBefore` | crates/manox-agent/src/sidebar_order.rs:166-184 | the splice gives the moved list and reports a change exactly when it differs |
| `SidebarOrder.Order.MoveThread` | crates/manox-agent/src/sidebar_order.rs:74-90 | refused exactly for an unknown source or anchor and then without effect, else one account becomes the moved list |
| `SidebarOrder.Order.MoveGroup` | crates/manox-agent/src/sidebar_order.rs:94-102 | the same for the folder list |
| `SidebarOrder.Order.FloatToHead` | crates/manox-agent/src/sidebar_order.rs:109-121 | an accounted row that is not first goes to the head, the others keep their order |
| `SidebarOrder.Order.ReconcileGroups` | crates/manox-agent/src/sidebar_order.rs:128-147 | the folder list becomes new paths in given order, then committed ones in theirs |
| `SidebarOrder.GroupsReconcile` | crates/manox-agent/src/sidebar_order.rs:128-147 | that list is a duplicate-free permutation of the registered paths, new ones before the committed ones in their order, and a second pass leaves it |
| `SidebarOrder.Order.Reconcile` | crates/manox-agent/src/sidebar_order.rs:212-270 | grouping, per-partition rewriting in any order and pruning compute the reconciled accounts and display lists |
| `SidebarOrder.AccountIsPermutation` | crates/manox-agent/src/sidebar_order.rs:220-243 | a reconciled account is a duplicate-free permutation of the partition's live ids |
| `SidebarOrder.AccountOrder` | crates/manox-agent/src/sidebar_order.rs:220-243 | in it newcomers precede survivors, survivors keep their stored order, newcomers stand newest first with ties by id |
| `SidebarOrder.SecondReconcileIsIdle` | crates/manox-agent/src/sidebar_order.rs:212-270 | a second reconcile against the same rows changes nothing |
| `SidebarOrder.ReconcilePartitionsTheRows` | crates/manox-agent/src/sidebar_order.rs:212-270 | every row id lands once, in exactly its partition's list, and account and list are permutations of each other |
| `SidebarOrder.DisplayRanks` | crates/manox-agent/src/sidebar_order.rs:245-261 | of two rows of a partition the pinned one is shown first, else the one interacted with later, else the smaller id |
| `SidebarOrder.DisplayDependsOnRowsOnly` | crates/manox-agent/src/sidebar_order.rs:245-261 | the display order is the same for every arrival order of the rows and every account |
| `Bytes.AsciiEndsCharacter` | crates/hyperlinks/src/path.rs:67-78 | in UTF-8 text a cut after an ASCII byte is a character boundary |
| `Overlap.Consolidate` | crates/hyperlinks/src/shared.rs:35-54 | the loop computes the sweep over the sorted spans |
| `Overlap.IsCovered` | crates/hyperlinks/src/shared.rs:23-30 | true exactly when some range overlaps |
| `Overlap.OverlapSharesAPosition` | crates/hyperlinks/src/shared.rs:46-48 | non-empty spans overlap exactly when they share a position |
| `Overlap.CoveredSharesAPosition` | crates/hyperlinks/src/shared.rs:23-30 | a non-empty range is covered exactly when it shares a position with some range |
| `Overlap.ConsolidateResolvesOverlaps` | crates/hyperlinks/src/shared.rs:35-54 | for non-empty spans the result is a disjoint in-order sub-bag of the input, and every input span is covered by a kept one that ranks no later |
| `Overlap.ConsolidateIdempotent` | crates/hyperlinks/src/shared.rs:35-54 | consolidating again changes nothing |
| `Overlap.KeptExactlyWhen` | crates/hyperlinks/src/shared.rs:35-54 | for non-empty spans a span's range is kept exactly when no input span ahead of it that overlaps it stays, a recursion over the input alone |
| `EmptySpans.DisjointExactlyWhen` | crates/hyperlinks/src/shared.rs:35-54 | with empty spans allowed the result is disjoint exactly when no span that stays has an empty span at its start and another span starting inside it |
| `EmptySpans.EmptySpanBreaksDisjointness` | crates/hyperlinks/src/shared.rs:45-53 | an input with an empty span whose kept spans overlap |
| `Links.DetectedLinksResolve` | crates/hyperlinks/src/shared.rs:35-54 | spans of both scanners consolidate to disjoint found spans that cover every found one, and a found span is kept exactly when it stays by that recursion over the found spans |
| `Links.UrlsAndPathsAlternate` | crates/hyperlinks/src/shared.rs:35-54 | a URL is kept exactly when no kept path threatens it, a path exactly when no kept URL removes it |
| `Links.UrlFate` | crates/hyperlinks/src/shared.rs:35-54 | a URL no found path threatens is kept; one threatened by a path that no found URL removes is dropped |
| `Links.PathSwallowsUrl` | crates/hyperlinks/src/shared.rs:35-54 | the text x/ipfs:a.b, whose URL both scanners' results drop for the path around it |
| `UrlScan.TrimUrl` | crates/hyperlinks/src/url.rs:69-117 | both loops together compute the trimmed slice |
| `UrlScan.TrimmedIsClean` | crates/hyperlinks/src/url.rs:69-117 | no trailing punctuation or control byte is left, nor a closing bracket without its opener, nor a leading blank |
| `UrlScan.TrimmedReads` | crates/hyperlinks/src/url.rs:69-117 | in characters: no final punctuation, quote or control, a final closing bracket only with its opener, no leading blank |
| `UrlScan.CutReads` | crates/hyperlinks/src/url.rs:80-117 | in characters: what the tail cut removes is a control, punctuation, a quote or a closing bracket without its opener before it |
| `UrlScan.TrimFromStops` | crates/hyperlinks/src/url.rs:69-79 | the head cut removes only whitespace and control bytes, all of them |
| `UrlScan.TrimToStops` | crates/hyperlinks/src/url.rs:80-117 | the tail cut removes only control bytes, punctuation, quotes and closers without an opener before them, up to the first byte that is none |
| `UrlScan.TrimIdempotent` | crates/hyperlinks/src/url.rs:69-117 | trimming again changes nothing |
| `UrlScan.CandidateIsPrefix` | crates/hyperlinks/src/url.rs:41-55 | a candidate is a terminator-free slice of the text from its scheme, cut on character boundaries |
| `UrlScan.SchemeAtMissesNone` | crates/hyperlinks/src/url.rs:31-61 | the scheme lookup finds some scheme wherever one starts |
| `UrlScan.SchemeFoundAnywhere` | crates/hyperlinks/src/url.rs:36-40 | a known scheme is found wherever it stands in a text |
| `UrlScan.KnownSchemes` | crates/hyperlinks/src/url.rs:8-23 | the fourteen schemes |
| `UrlScan.TerminatorReads` | crates/hyperlinks/src/url.rs:63-65 | in characters: what ends a URL |
| `UrlScan.UrlSpanReads` | crates/hyperlinks/src/url.rs:31-61 | a found URL is a known scheme with something behind it, equal to its slice and free of terminators |
| `UrlScan.ScanUrls` | crates/hyperlinks/src/url.rs:31-61 | for any plain scheme list: progress, disjoint increasing spans equal to their slices with scheme and payload and no terminator, and every scheme occurrence lies in a span or in a scheme without payload |
| `UrlScan.DetectUrls` | crates/hyperlinks/src/url.rs:8-61 | the same for the program's fourteen schemes |
| `PathScan.CollectCandidate` | crates/hyperlinks/src/path.rs:67-78 | the maximal run of path bytes, if it holds a slash |
| `PathScan.ExtensionMeans` | crates/hyperlinks/src/path.rs:110-114 | the extension is exactly the non-empty suffix behind a dot without dot or slash in it |
| `PathScan.LineAnchorMeans` | crates/hyperlinks/src/path.rs:122-135 | a line anchor is exactly a colon followed by a line number or a dashed range to the end |
| `PathScan.PathLikeReads` | crates/hyperlinks/src/path.rs:84-107 | a candidate is a path exactly when it holds a slash and has an enabled line anchor, a known or short alphanumeric extension, or exists |
| `PathScan.PathBytesRead` | crates/hyperlinks/src/path.rs:67-78 | in characters: what a candidate runs over |
| `PathScan.StartsRead` | crates/hyperlinks/src/path.rs:30-48 | in characters: where a candidate may start |
| `PathScan.DetectPaths` | crates/hyperlinks/src/path.rs:24-63 | on every text: disjoint increasing spans equal to their slices on character boundaries, each a maximal path-like run, and every possible start lies in a span or in a rejected run |
| `PrefixGate.ViewsAreWellformed` | crates/manox-agent/src/prefix_gate.rs:134-178 | no history item of a payload view is empty in any of the three wire shapes |
| `PrefixGate.TopLevelShapesRead` | crates/manox-agent/src/prefix_gate.rs:134-178 | the two top-level wire shapes: model, prompt, tools and history are read from their own fields |
| `PrefixGate.ChatShapeReads` | crates/manox-agent/src/prefix_gate.rs:134-197 | the chat shape: system and developer messages, wherever they stand, are the prompt and all others in order the history |
| `PrefixGate.VisibilityOnlyChange` | crates/manox-agent/src/prefix_gate.rs:255-267 | true exactly when the name sets differ and every shared tool keeps its definition |
| `PrefixLaws.ToolReads` | crates/manox-agent/src/prefix_gate.rs:222-250 | a tool is named inline or under function; the cache mark is no part of its definition, all else is |
| `PrefixLaws.VisibilityReads` | crates/manox-agent/src/prefix_gate.rs:255-267 | a tool that appears or vanishes is a visibility change; no change or a changed definition is not |
| `PrefixGate.RedactDates` | crates/manox-agent/src/prefix_gate.rs:289-306 | the loop computes the redaction |
| `PrefixLaws.DateReads` | crates/manox-agent/src/prefix_gate.rs:287-316 | a date is four, two and two digits with dashes |
| `PrefixLaws.RedactsTheDate` | crates/manox-agent/src/prefix_gate.rs:289-306 | a date is replaced by the marker and the text around it kept |
| `PrefixGate.RedactedHasNoDate` | crates/manox-agent/src/prefix_gate.rs:289-306 | no date literal survives anywhere, not even across a replacement |
| `PrefixGate.RedactIdempotent` | crates/manox-agent/src/prefix_gate.rs:289-306 | redacting again changes nothing |
| `PrefixGate.NormalizeSystem` | crates/manox-agent/src/prefix_gate.rs:273-285 | the loop drops volatile lines and redacts the rest |
| `PrefixLaws.VolatileReads` | crates/manox-agent/src/prefix_gate.rs:273-280 | a line is volatile exactly when behind its indentation it starts with Date: or mentions permission mode in any case |
| `PrefixLaws.LinesSplit` | crates/manox-agent/src/prefix_gate.rs:273-285 | a prompt splits at its newlines, a carriage return before one going with it |
| `PrefixGate.CommonHistoryLen` | crates/manox-agent/src/prefix_gate.rs:327-332 | the loop computes the common length |
| `PrefixGate.CommonLenIsLongest` | crates/manox-agent/src/prefix_gate.rs:327-332 | it is the longest common prefix, the whole old history exactly when that is a prefix of the new |
| `PrefixGate.BytesAreConserved` | crates/manox-agent/src/prefix_gate.rs:336-403 | replayed and lost bytes sum to the total; the estimate is a quarter of the lost bytes, rounded down, exactly for unattributed divergence and else zero |
| `PrefixLaws.EachCauseExactlyWhen` | crates/manox-agent/src/prefix_gate.rs:362-389 | each of the five causes is named exactly when it applies and none ranked before it does |
| `PrefixLaws.SampleReads` | crates/manox-agent/src/prefix_gate.rs:336-462 | a sample's flags, and the notices it raises: always its stability, an invalidation exactly for divergence without a cause |
| `PrefixLaws.StabilityIsTheShare` | crates/manox-agent/src/prefix_gate.rs:346-360 | the percentage is the replayed share of the old payload, rounded down; of no bytes it is 100 |
| `PrefixGate.ExchangeKeepsNormalFormExactlyWhen` | crates/manox-agent/src/prefix_gate.rs:273-285 | exchanging one line anywhere keeps the normal form exactly when both are volatile, or neither is and they are equal but for dates |
| `PrefixGate.LineChangeIsIntendedExactlyWhen` | crates/manox-agent/src/prefix_gate.rs:336-403 | a one-line prompt change under the same model and no shorter history is attributed exactly in that case; then nothing is estimated as reprocessed, else a quarter of the lost bytes |
| `PrefixGate.ModeSwitchIsReported` | crates/manox-agent/src/prefix_gate.rs:369-389 | a switch between two access modes in the prompt's mode line is unattributed and reported |
| `PrefixGate.FullStabilityExactlyWhen` | crates/manox-agent/src/prefix_gate.rs:336-403 | stability is at most 100, and 100 exactly when system and tools are unchanged and the old history is a prefix of the new |
| `PrefixGate.StabilityGate.Observe` | crates/manox-agent/src/prefix_gate.rs:434-462 | the baseline becomes this payload, the sample compares with the previous one, an invalidation notice only for unattributed divergence |
| `PrefixGate.UndivergedRunOnlyAppends` | crates/manox-agent/src/prefix_gate.rs:336-403 | over a run without divergence model, system and tools stay and the first history is a prefix of the last |

## Left out

- Overflow of revisions, round counters and per-run token sums: they are unbounded naturals; only the goal's token total and the task's byte total saturate at the 64-bit maximum.
- Serialization: goals, rows and payloads are values, with encoder and decoder as parameters where their behaviour matters.
- GoalDriver.RoundDriver.GoalHousekeeping: notices, prompt rendering and the engine's chaining loop around it are not modelled; any schedule of queue, run and settle is.
- GoalService.GoalBridge.AppendEvents: one caller at a time; the interleaving of its lock sections is GoalInterleaving's subject.
- GoalUpdates.NoLostUpdate: the model's block report checks the rounds on an earlier read of its own, and the status request it then makes is covered as one; the seed of a new process precedes every other caller; a routed row is never lost on its way to the file.
- SessionLease.HandlesFenceThePath: excludes unlinking the lock file inside an acquire, for which the program promises nothing; mutual exclusion per inode is proved there too.
- SessionLease.LeaseTable.Join: the class holds the registry sections alone; the sequence of acquire is the move machine.
- Lease timing (the retry budget, the async wrapper), hard links between lock files and non-Unix file identity.
- BackgroundTask.Task.ApplySettlement: its three lock sections follow one another; another settlement's sections in between are not interleaved.
- BackgroundTask.Task.PushEvent: output tail, the task registry and its garbage collection, and the other snapshot fields.
- StopProtocol.StopProtocolIsSafe: the hook's own effects and the cancel token's listeners are not modelled.
- ApprovalGate.GateAndJournalAgree: the journal sink is wired, as the engine does before any park; a request row is journaled in one step with its park; a crash between the two is not modelled.
- The question gate, which repeats the approval gate, and the escalation and network approvers.
- ImportProperties.ExpandsNothingExactlyWhen: relative to comment stripping, which is a parameter; every import theorem holds whatever it does.
- Instruction discovery, exclusion globs, rules and the final sort of the external list.
- Loading and saving the sidebar file.
- PathScan.DetectPaths: file existence is an oracle; the text is UTF-8, as the program's string type guarantees.
- PrefixGate.FullStabilityExactlyWhen: the encoder gives every value at least one byte, as JSON does; counters are unbounded.
- Plugins, the object store, settings, providers, permissions, hosts and tool schemas: plumbing that would only add easy members.
