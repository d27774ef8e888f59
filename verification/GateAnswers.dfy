/** What a parked card receives and what its decision row says: the answer the user gave it, and no other. */
module GateAnswers {
  import opened Wrappers
  import opened Replay
  import opened ApprovalGate

  /** The journal's word names the response and no other kind of response. */
  predicate Says(word: string, r: Response) {
    && (word == "allow_once" <==> r.AllowOnce?)
    && (word == "deny" <==> r.Deny?)
    && (word == "allow_host_session" <==> r.AllowHostSession?)
    && (word == "allow_host_persistent" <==> r.AllowHostPersistent?)
    && (word == "answered" <==> r.Answered?)
    && (word == "expired" <==> r.Expired?)
    && (word == "dismissed" <==> r.Dismissed?)
    && word != "cancelled"
  }

  /** A decision row for this card. */
  predicate Decides(row: Row, id: string, m: Meta) {
    row.kind == "decision" && row.authId == id && Get(row.payload, "toolName") == Some(Str(m.toolName))
  }

  function WordOf(row: Row): string {
    StrOrEmpty(Get(row.payload, "verdict"))
  }

  /** An answer to a parked card reaches that card's own responder as given, takes the card out, journals one
      row that says it, and touches nothing else; an answer to no card does nothing. */
  lemma AnswerReachesItsCard(g: GateState, id: string, r: Response)
    ensures var t := Respond(g, id, r);
            if id !in g.pending then t == g else
            && g.pending[id].ticket in t.delivered && t.delivered[g.pending[id].ticket] == r
            && t.delivered - {g.pending[id].ticket} == g.delivered - {g.pending[id].ticket}
            && id !in t.pending && t.pending == g.pending - {id} && t.nextTicket == g.nextTicket
            && (!g.sink ==> t.journal == g.journal)
            && (g.sink ==> |t.journal| == |g.journal| + 1 && g.journal <= t.journal
                           && Decides(t.journal[|g.journal|], id, g.pending[id].meta) && Says(WordOf(t.journal[|g.journal|]), r))
  {
  }

  /** A discard answers nothing: it takes the card out and journals one cancelled row. */
  lemma DiscardAnswersNothing(g: GateState, id: string)
    ensures var t := Discard(g, id);
            if id !in g.pending then t == g else
            && t.delivered == g.delivered && t.pending == g.pending - {id} && t.nextTicket == g.nextTicket
            && (!g.sink ==> t.journal == g.journal)
            && (g.sink ==> |t.journal| == |g.journal| + 1 && g.journal <= t.journal
                           && Decides(t.journal[|g.journal|], id, g.pending[id].meta) && WordOf(t.journal[|g.journal|]) == "cancelled")
  {
  }

  // ----- over every run

  /** The `i`-th action of the run is this answer, and it finds the card with this ticket parked. */
  ghost predicate AnsweredBy(acts: seq<Action>, i: nat, t: nat, r: Response) {
    && i < |acts| && acts[i].Responds? && acts[i].response == r
    && var g := Run(NewGate(), acts[..i]);
    && acts[i].id in g.pending && g.pending[acts[i].id].ticket == t
  }

  ghost predicate Answered(acts: seq<Action>, t: nat, r: Response) {
    exists i: nat :: AnsweredBy(acts, i, t, r)
  }

  lemma AnsweredSplits(acts: seq<Action>, t: nat, r: Response)
    requires acts != []
    ensures var n := |acts| - 1;
            Answered(acts, t, r) <==> Answered(acts[..n], t, r) || AnswersNow(Run(NewGate(), acts[..n]), acts[n], t, r)
  {
    var n := |acts| - 1;
    forall i: nat | i < n ensures AnsweredBy(acts, i, t, r) <==> AnsweredBy(acts[..n], i, t, r) {
      assert acts[..n][..i] == acts[..i];
    }
    assert AnsweredBy(acts, n, t, r) <==> AnswersNow(Run(NewGate(), acts[..n]), acts[n], t, r);
    assert forall i: nat :: AnsweredBy(acts, i, t, r) ==> i <= n;
    assert forall i: nat :: AnsweredBy(acts[..n], i, t, r) ==> i < n;
  }

  /** Over every run a responder received a response exactly when some answer with that response found its
      card parked. */
  lemma {:induction false} DeliveredExactlyTheAnswers(acts: seq<Action>, t: nat, r: Response)
    ensures var d := Run(NewGate(), acts).delivered;
            (t in d && d[t] == r) <==> Answered(acts, t, r)
  {
    if acts == [] {
    } else {
      var n := |acts| - 1;
      DeliveredExactlyTheAnswers(acts[..n], t, r);
      DeliveryIsFinal(NewGate(), acts[..n]);
      StepDelivers(Run(NewGate(), acts[..n]), acts[n], t, r);
      AnsweredSplits(acts, t, r);
    }
  }

  predicate AnswersNow(g: GateState, a: Action, t: nat, r: Response) {
    a.Responds? && a.response == r && a.id in g.pending && g.pending[a.id].ticket == t
  }

  lemma StepDelivers(g: GateState, a: Action, t: nat, r: Response)
    requires TicketsOk(g)
    ensures var d := Step(g, a).delivered;
            (t in d && d[t] == r) <==> (t in g.delivered && g.delivered[t] == r) || AnswersNow(g, a, t, r)
  {
    match a {
      case Reopens => ReparkTickets(g, Unsettled(g.journal));
      case Restarts => ReparkTickets(g.(pending := map[]), Unsettled(g.journal));
      case _ =>
    }
  }

  /** The `i`-th action of the run settles a card it finds parked, and the row says how. */
  ghost predicate ToldBy(acts: seq<Action>, i: nat, row: Row) {
    && i < |acts|
    && var g := Run(NewGate(), acts[..i]);
    match acts[i]
    case Responds(id, r) => id in g.pending && Decides(row, id, g.pending[id].meta) && Says(WordOf(row), r)
    case Discards(id) => id in g.pending && Decides(row, id, g.pending[id].meta) && WordOf(row) == "cancelled"
    case _ => false
  }

  /** Over every run each decision row was written by the answer or discard it names, and says it. */
  lemma {:induction false} DecisionsSayTheAnswers(acts: seq<Action>, j: nat) returns (i: nat)
    requires j < |Run(NewGate(), acts).journal| && Run(NewGate(), acts).journal[j].kind == "decision"
    ensures ToldBy(acts, i, Run(NewGate(), acts).journal[j]) && |Run(NewGate(), acts[..i]).journal| == j
  {
    var n := |acts| - 1;
    var init, g := acts[..n], Run(NewGate(), acts[..n]);
    GateAndJournalAgree(init);
    StepJournals(g, acts[n]);
    if j < |g.journal| {
      i := DecisionsSayTheAnswers(init, j);
      assert init[..i] == acts[..i];
    } else {
      i := n;
      match acts[n] {
        case Responds(id, r) => AnswerReachesItsCard(g, id, r);
        case Discards(id) => DiscardAnswersNothing(g, id);
        case _ =>
      }
    }
  }

  /** A step adds at most one row to the chain: a request when it parks, a decision when it settles. */
  lemma StepJournals(g: GateState, a: Action)
    ensures var t := Step(g, a);
            && g.journal <= t.journal && |t.journal| <= |g.journal| + 1
            && (a.Reopens? || a.Restarts? ==> t.journal == g.journal)
            && (a.Parks? ==> |t.journal| == |g.journal| + 1 && t.journal[|g.journal|].kind == "request")
  {
    match a {
      case Reopens => ReparkJournal(g, Unsettled(g.journal));
      case Restarts => ReparkJournal(g.(pending := map[]), Unsettled(g.journal));
      case _ =>
    }
  }

  lemma {:induction false} ReparkJournal(g: GateState, parks: seq<Interaction>)
    ensures Repark(g, parks).journal == g.journal && Repark(g, parks).sink == g.sink
    decreases |parks|
  {
    if parks == [] {
    } else {
      ReparkJournal(g, parks[..|parks| - 1]);
    }
  }
}
