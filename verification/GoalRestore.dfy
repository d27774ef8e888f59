/** The way back through the journal: bridge rows written as goal entries among a session's other entries,
    replayed, decoded and seeded into the next process's bridge. */
module GoalRestore {
  import opened Wrappers
  import opened Goal
  import opened GoalService
  import GoalRuns
  import Replay

  datatype Codec = Codec(encode: ThreadGoal -> Replay.Json, decode: Replay.Json -> Option<ThreadGoal>)

  /** What decoding promises of an encoded goal; no goal is written as null. */
  ghost predicate RoundTrips(c: Codec) {
    forall g :: c.decode(c.encode(g)) == Some(g) && !c.encode(g).Null?
  }

  function Encoded(c: Codec, row: Option<ThreadGoal>): Option<Replay.Json> {
    if row.Some? then Some(c.encode(row.value)) else None
  }

  /** The journal's goal entries are the bridge's rows, whatever lies between them. */
  predicate Carries(c: Codec, records: seq<Replay.Entry>, rows: seq<Option<ThreadGoal>>) {
    var written := Replay.GoalRows(records);
    |written| == |rows| && forall i :: 0 <= i < |rows| ==> written[i] == Encoded(c, rows[i])
  }

  /** How a seed reads the replayed field: null is the explicit clear, and a snapshot that does not decode
      is passed over like an absent one. */
  function Snapshot(c: Codec, goal: Option<Replay.Json>): Option<Option<ThreadGoal>> {
    if goal.None? then None
    else if goal.value.Null? then Some(None)
    else if c.decode(goal.value).None? then None
    else Some(c.decode(goal.value))
  }

  /** A new process over a replayed journal. */
  function Restored(c: Codec, s: BridgeState, records: seq<Replay.Entry>, now: int): BridgeState {
    Seed(Fresh(s.threadId, s.stored).(rows := s.rows, log := s.log), Snapshot(c, Replay.ReplayState(records).goal), now)
  }

  lemma ReplayReadsLastRow(c: Codec, records: seq<Replay.Entry>, rows: seq<Option<ThreadGoal>>)
    requires RoundTrips(c) && Carries(c, records, rows)
    ensures Snapshot(c, Replay.ReplayState(records).goal) == LastRow(rows)
  {
    Replay.ReplayedGoalIsLastRow(records);
  }

  /** After any bridge run, replaying any journal that carries its rows and seeding a fresh bridge gives
      back the goal as the restart law says: the same goal, disarmed, or an Active one paused a revision
      later with its definition and accounting untouched. */
  lemma JournalRoundTrip(c: Codec, threadId: string, acts: seq<GoalRuns.Action>, records: seq<Replay.Entry>, now: int)
    requires RoundTrips(c) && Carries(c, records, GoalRuns.Run(Fresh(threadId, true), acts).rows)
    ensures var s := GoalRuns.Run(Fresh(threadId, true), acts);
            GoalRuns.RestartedFrom(s, Restored(c, s, records, now), now)
  {
    var s := GoalRuns.Run(Fresh(threadId, true), acts);
    ReplayReadsLastRow(c, records, s.rows);
    GoalRuns.RestartRoundTrip(threadId, acts, now, now);
  }
}
