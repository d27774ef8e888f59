/** One background task: a status that settles once and a bounded ring of recent events. */
module BackgroundTask {
  import opened Wrappers
  import B = Bytes

  const MAX_BUFFER_BYTES: nat := 256 * 1024
  const MAX_RING_EVENTS: nat := 4096

  datatype TaskStatus = Running | Stopping | Completed | Failed | TimedOut | Stopped | SessionEnded {
    predicate IsTerminal() {
      !Running? && !Stopping?
    }
  }

  datatype TaskEventKind =
    | Output(text: seq<B.Byte>)
    | Terminal(status: TaskStatus, exitCode: Option<int>, failureSummary: Option<seq<B.Byte>>)

  datatype TaskEvent = TaskEvent(event: TaskEventKind, taskSeq: nat, timestamp: int)

  datatype SettlementKind = SettledCompleted | SettledFailed | SettledTimedOut | SettledStopped

  datatype Settlement = Settlement(kind: SettlementKind, teardown: bool, exitCode: Option<int>, failureSummary: Option<seq<B.Byte>>)

  function SettledStatus(s: Settlement): TaskStatus {
    match s.kind
    case SettledCompleted => Completed
    case SettledFailed => Failed
    case SettledTimedOut => TimedOut
    case SettledStopped => if s.teardown then SessionEnded else Stopped
  }

  // ----- failure summaries

  const MAX_SUMMARY_BYTES: nat := 2048

  /** The bytes of the ellipsis. */
  const ELLIPSIS: seq<B.Byte> := [0xE2, 0x80, 0xA6]

  /** The last character boundary at or before `i`. */
  function FloorBoundary(text: seq<B.Byte>, i: nat): (k: nat)
    requires i <= |text|
    ensures k <= i && B.IsBoundary(text, k) && forall j :: k < j <= i ==> !B.IsBoundary(text, j)
  {
    if B.IsBoundary(text, i) then i else FloorBoundary(text, i - 1)
  }

  function Truncated(summary: seq<B.Byte>): seq<B.Byte> {
    if |summary| > MAX_SUMMARY_BYTES then summary[..FloorBoundary(summary, MAX_SUMMARY_BYTES)] + ELLIPSIS else summary
  }

  /** In text at most three continuation bytes stand in a row. */
  lemma {:induction false} BoundaryNear(text: seq<B.Byte>, i: nat)
    requires B.IsText(text) && 3 <= i <= |text|
    ensures exists j :: i - 3 <= j <= i && B.IsBoundary(text, j)
    decreases |text|
  {
    var n := B.EncodedLength(text[0]);
    if i - n < 3 {
      LeadNear(text, i, n);
    } else {
      BoundaryNear(text[n..], i - n);
      var j :| i - n - 3 <= j <= i - n && B.IsBoundary(text[n..], j);
      ShiftBoundary(text, n, j);
    }
  }

  lemma ShiftBoundary(text: seq<B.Byte>, n: nat, j: nat)
    requires B.IsText(text) && text != [] && n == B.EncodedLength(text[0]) && n <= |text| && j <= |text| - n
    requires B.IsBoundary(text[n..], j)
    ensures B.IsBoundary(text, n + j)
  {
    var rest := text[n..];
    if j < |rest| {
      assert rest[j] == text[n + j];
      if j == 0 { assert B.EncodedLength(rest[0]) > 0; }
    }
  }

  lemma LeadNear(text: seq<B.Byte>, i: nat, n: nat)
    requires B.IsText(text) && text != [] && n == B.EncodedLength(text[0]) && 3 <= i <= |text| && i < n + 3
    ensures exists j :: i - 3 <= j <= i && B.IsBoundary(text, j)
  {
    if i == 3 {
      assert B.IsBoundary(text, 0);
    } else if n <= i {
      assert B.IsBoundary(text[n..], 0);
      ShiftBoundary(text, n, 0);
      assert B.IsBoundary(text, n + 0);
    }
  }

  /** A summary is kept whole up to the limit; a longer text is cut at a character boundary at most three
      bytes before it and marked with an ellipsis. */
  lemma TruncatedIsNearlyWhole(summary: seq<B.Byte>)
    requires B.IsText(summary)
    ensures var r := Truncated(summary);
            if |summary| <= 2048 then r == summary
            else exists k :: 2045 <= k <= 2048 && B.IsBoundary(summary, k) && r == summary[..k] + [0xE2, 0x80, 0xA6]
  {
    if |summary| > MAX_SUMMARY_BYTES { BoundaryNear(summary, MAX_SUMMARY_BYTES); }
  }

  // ----- the ring's specification

  function EventBytes(e: TaskEvent): nat {
    if e.event.Output? then |e.event.text| else 0
  }

  function Bytes(events: seq<TaskEvent>): nat {
    if events == [] then 0 else EventBytes(events[0]) + Bytes(events[1..])
  }

  predicate WithinCaps(events: seq<TaskEvent>) {
    Bytes(events) <= MAX_BUFFER_BYTES && |events| <= MAX_RING_EVENTS
  }

  /** Drop from the front until both caps are met. */
  function Newest(history: seq<TaskEvent>): seq<TaskEvent> {
    if WithinCaps(history) then history else Newest(history[1..])
  }

  lemma {:induction false} BytesConcat(a: seq<TaskEvent>, b: seq<TaskEvent>)
    ensures Bytes(a + b) == Bytes(a) + Bytes(b)
  {
    if a == [] {
      assert a + b == b;
    } else {
      assert (a + b)[0] == a[0] && (a + b)[1..] == a[1..] + b;
      BytesConcat(a[1..], b);
    }
  }

  /** A longer history exceeds the caps whenever a suffix of it does. */
  lemma CapsMonotone(front: seq<TaskEvent>, back: seq<TaskEvent>)
    ensures WithinCaps(front + back) ==> WithinCaps(back)
  {
    BytesConcat(front, back);
  }

  /** `Newest` is the longest suffix within the caps: it meets them, and every longer suffix of the
      history breaks one. */
  lemma {:induction false} NewestIsLongest(history: seq<TaskEvent>)
    ensures var ring := Newest(history);
            && Bytes(ring) <= 262144 && |ring| <= 4096
            && |ring| <= |history| && ring == history[|history| - |ring|..]
            && forall k :: 0 <= k < |history| - |ring| ==> Bytes(history[k..]) > 262144 || |history| - k > 4096
  {
    if !WithinCaps(history) {
      NewestIsLongest(history[1..]);
      var ring := Newest(history);
      forall k | 0 <= k < |history| - |ring| ensures Bytes(history[k..]) > 262144 || |history| - k > 4096 {
        if k == 0 { assert history[0..] == history; } else { assert history[1..][k - 1..] == history[k..]; }
      }
      assert history[1..][|history| - 1 - |ring|..] == history[|history| - |ring|..];
    }
  }

  /** Cutting a history that already breaks the caps leaves its newest events the same. */
  lemma {:induction false} NewestOfSuffix(history: seq<TaskEvent>, k: nat)
    requires k <= |history|
    requires k > 0 ==> !WithinCaps(history[k - 1..])
    ensures Newest(history[k..]) == Newest(history)
    decreases k
  {
    if k == 0 {
      assert history[0..] == history;
    } else {
      assert history[..k - 1] + history[k - 1..] == history;
      CapsMonotone(history[..k - 1], history[k - 1..]);
      assert history[k - 1..][1..] == history[k..];
      if k > 1 {
        assert history[k - 2..] == [history[k - 2]] + history[k - 1..];
        CapsMonotone([history[k - 2]], history[k - 1..]);
      }
      NewestOfSuffix(history, k - 1);
    }
  }

  function SaturatingSub(a: nat, b: nat): nat {
    if a < b then 0 else a - b
  }

  /** The ring the pushes leave behind: an output evicts, a terminal record does not. */
  function RingAfter(history: seq<TaskEvent>): seq<TaskEvent> {
    if history == [] then [] else
    var grown := RingAfter(history[..|history| - 1]) + [history[|history| - 1]];
    if history[|history| - 1].event.Output? then Newest(grown) else grown
  }

  lemma RingPush(history: seq<TaskEvent>, e: TaskEvent)
    ensures RingAfter(history + [e]) == if e.event.Output? then Newest(RingAfter(history) + [e]) else RingAfter(history) + [e]
    ensures Bytes(RingAfter(history) + [e]) == Bytes(RingAfter(history)) + EventBytes(e)
  {
    assert (history + [e])[..|history|] == history;
    BytesConcat(RingAfter(history), [e]);
    assert Bytes([e]) == EventBytes(e) + Bytes([]);
  }

  lemma SuffixGrows(history: seq<TaskEvent>, e: TaskEvent, k: nat)
    requires k <= |history| && (k > 0 ==> !WithinCaps(history[k - 1..]))
    ensures (history + [e])[k..] == history[k..] + [e]
    ensures k > 0 ==> !WithinCaps((history + [e])[k - 1..])
  {
    if k > 0 {
      assert (history + [e])[k - 1..] == history[k - 1..] + [e];
      BytesConcat(history[k - 1..], [e]);
    }
  }

  /** At every moment the ring is a suffix of the history that no longer suffix within the caps
      exceeds. */
  lemma {:induction false} RingIsMaximalSuffix(history: seq<TaskEvent>) returns (k: nat)
    ensures k <= |history| && RingAfter(history) == history[k..]
    ensures k > 0 ==> !WithinCaps(history[k - 1..])
    decreases |history|, 0
  {
    if history == [] {
      k := 0;
    } else {
      var init, e := history[..|history| - 1], history[|history| - 1];
      assert history == init + [e];
      if e.event.Output? {
        RingIsNewest(init, e);
        NewestIsLongest(history);
        k := |history| - |Newest(history)|;
      } else {
        k := RingIsMaximalSuffix(init);
        RingPush(init, e);
        SuffixGrows(init, e, k);
      }
    }
  }

  /** Right after an output the ring is exactly the longest suffix of the whole history within both
      caps, however many terminal records were pushed without eviction before. */
  lemma {:induction false} RingIsNewest(history: seq<TaskEvent>, e: TaskEvent)
    requires e.event.Output?
    ensures RingAfter(history + [e]) == Newest(history + [e])
    decreases |history|, 1
  {
    var k := RingIsMaximalSuffix(history);
    SuffixGrows(history, e, k);
    NewestOfSuffix(history + [e], k);
    RingPush(history, e);
  }

  /** Sequence numbers count the pushes. */
  predicate Numbered(history: seq<TaskEvent>) {
    history == [] || (history[|history| - 1].taskSeq == |history| && Numbered(history[..|history| - 1]))
  }

  /** What pushing an output makes of the ring, told in one place. */
  lemma OutputJoins(history: seq<TaskEvent>, e: TaskEvent)
    requires Numbered(history) && e.taskSeq == |history| + 1 && e.event.Output?
    ensures Numbered(history + [e])
    ensures Newest(RingAfter(history) + [e]) == RingAfter(history + [e]) == Newest(history + [e])
    ensures Bytes(RingAfter(history) + [e]) == Bytes(RingAfter(history)) + |e.event.text|
  {
    RingPush(history, e);
    RingIsNewest(history, e);
  }

  /** So the ring's sequence numbers are consecutive and end at the task's counter. */
  lemma RingIsConsecutive(history: seq<TaskEvent>, i: nat)
    requires Numbered(history) && i < |RingAfter(history)|
    ensures |RingAfter(history)| <= |history|
    ensures RingAfter(history)[i].taskSeq == |history| - |RingAfter(history)| + i + 1
  {
    var k := RingIsMaximalSuffix(history);
    NumberedAt(history, k + i);
  }

  lemma {:induction false} NumberedAt(history: seq<TaskEvent>, i: nat)
    requires Numbered(history) && i < |history|
    ensures history[i].taskSeq == i + 1
  {
    if i < |history| - 1 { NumberedAt(history[..|history| - 1], i); }
  }

  /** The eviction loop. The subtraction saturates in the program; it never has to. */
  method Evict(events: seq<TaskEvent>, count: nat) returns (ring: seq<TaskEvent>, bytes: nat)
    requires count == Bytes(events)
    ensures ring == Newest(events) && bytes == Bytes(ring)
  {
    ring, bytes := events, count;
    while bytes > MAX_BUFFER_BYTES || |ring| > MAX_RING_EVENTS
      invariant Newest(ring) == Newest(events) && bytes == Bytes(ring)
      decreases |ring|
    {
      assert ring != [];
      var removed := ring[0];
      ring := ring[1..];
      if removed.event.Output? {
        assert bytes >= |removed.event.text|;
        bytes := SaturatingSub(bytes, |removed.event.text|);
      }
    }
  }

  // ----- the task object

  class Task {
    var status: TaskStatus
    var taskSeq: nat
    var events: seq<TaskEvent>
    var eventsByteCount: nat
    var totalBytes: nat
    var eventCount: nat
    var exitedAt: Option<int>
    var exitCode: Option<int>
    var failureSummary: Option<seq<B.Byte>>
    ghost var history: seq<TaskEvent>

    /** The ring is what the pushes leave, sequence numbers count them, and the byte counter is exact. */
    ghost predicate Valid()
      reads this
    {
      events == RingAfter(history) && Numbered(history) && taskSeq == |history| && eventsByteCount == Bytes(events)
    }

    constructor ()
      ensures Valid() && history == [] && status == Running && exitCode.None? && failureSummary.None? && exitedAt.None?
    {
      status, taskSeq, events, eventsByteCount := Running, 0, [], 0;
      totalBytes, eventCount, exitedAt, exitCode, failureSummary := 0, 0, None, None, None;
      history := [];
    }

    /** Push an output line and evict: the ring becomes the longest suffix of the whole history within
        both caps. */
    method PushEvent(text: seq<B.Byte>, now: int)
      requires Valid()
      modifies this
      ensures Valid()
      ensures history == old(history) + [TaskEvent(Output(text), |old(history)| + 1, now)]
      ensures events == Newest(history)
      ensures eventCount == old(eventCount) + 1
      ensures totalBytes == SaturatingAdd(old(totalBytes), |text|)
      ensures status == old(status) && exitCode == old(exitCode) && failureSummary == old(failureSummary) && exitedAt == old(exitedAt)
    {
      taskSeq := taskSeq + 1;
      var event := TaskEvent(Output(text), taskSeq, now);
      eventCount := eventCount + 1;
      totalBytes := SaturatingAdd(totalBytes, |text|);
      OutputJoins(history, event);
      history := history + [event];
      events, eventsByteCount := Evict(events + [event], eventsByteCount + |text|);
    }

    /** Settle, first-wins: only a running or stopping task moves, and the terminal record joins the
        ring without eviction. */
    method PushTerminal(terminal: TaskStatus, now: int) returns (won: bool)
      requires Valid()
      modifies this
      ensures Valid()
      ensures won <==> !old(status).IsTerminal()
      ensures won ==> && status == terminal && exitedAt == Some(now)
                      && history == old(history) + [TaskEvent(Terminal(terminal, exitCode, failureSummary), |old(history)| + 1, now)]
                      && events == old(events) + [history[|history| - 1]]
      ensures !won ==> history == old(history) && events == old(events) && status == old(status) && exitedAt == old(exitedAt)
      ensures exitCode == old(exitCode) && failureSummary == old(failureSummary)
      ensures eventCount == old(eventCount) && totalBytes == old(totalBytes)
    {
      if status.IsTerminal() { return false; }
      status := terminal;
      exitedAt := Some(now);
      taskSeq := taskSeq + 1;
      var event := TaskEvent(Terminal(terminal, exitCode, failureSummary), taskSeq, now);
      RingPush(history, event);
      history := history + [event];
      events := events + [event];
      return true;
    }

    method BeginStopping() returns (owner: bool)
      requires Valid()
      modifies this
      ensures Valid() && history == old(history) && events == old(events)
      ensures owner <==> old(status).Running?
      ensures status == if owner then Stopping else old(status)
      ensures exitCode == old(exitCode) && failureSummary == old(failureSummary) && exitedAt == old(exitedAt)
      ensures eventCount == old(eventCount) && totalBytes == old(totalBytes)
    {
      if status.Running? {
        status := Stopping;
        return true;
      }
      return false;
    }

    method SetExitCode(code: Option<int>)
      requires Valid()
      modifies this`exitCode
      ensures Valid() && exitCode == code
    {
      exitCode := code;
    }

    method SetFailureSummary(summary: seq<B.Byte>)
      requires Valid()
      modifies this`failureSummary
      ensures Valid() && failureSummary == Some(Truncated(summary))
    {
      var truncated := summary;
      if |summary| > MAX_SUMMARY_BYTES {
        var boundary := FloorBoundary(summary, MAX_SUMMARY_BYTES);
        truncated := summary[..boundary] + ELLIPSIS;
      }
      failureSummary := Some(truncated);
    }

    /** A settlement's status is first-wins; its exit code and summary are not, a losing one still
        overwrites them. */
    method ApplySettlement(s: Settlement, now: int)
      requires Valid()
      modifies this
      ensures Valid()
      ensures old(status).IsTerminal() ==> status == old(status)
      ensures !old(status).IsTerminal() ==>
                && (status == Completed <==> s.kind.SettledCompleted?)
                && (status == Failed <==> s.kind.SettledFailed?)
                && (status == TimedOut <==> s.kind.SettledTimedOut?)
                && (status == SessionEnded <==> s.kind.SettledStopped? && s.teardown)
                && (status == Stopped <==> s.kind.SettledStopped? && !s.teardown)
      ensures history == if old(status).IsTerminal() then old(history)
                         else old(history) + [TaskEvent(Terminal(status, exitCode, failureSummary), |old(history)| + 1, now)]
      ensures exitCode == if s.exitCode.Some? then s.exitCode else old(exitCode)
      ensures failureSummary == if s.failureSummary.Some? then Some(Truncated(s.failureSummary.value)) else old(failureSummary)
      ensures exitedAt == if old(status).IsTerminal() then old(exitedAt) else Some(now)
      ensures eventCount == old(eventCount) && totalBytes == old(totalBytes)
    {
      if s.exitCode.Some? { SetExitCode(s.exitCode); }
      if s.failureSummary.Some? { SetFailureSummary(s.failureSummary.value); }
      var _ := PushTerminal(SettledStatus(s), now);
    }
  }
}
